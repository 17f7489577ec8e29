/** How the client's view follows the server's store: the unseen badges, the live counter,
    the live mark-as-seen path and the presence label, each stated across the two sides. */
module Consistency {
  import opened Wrappers
  import opened Api
  import opened Users
  import opened Messages
  import Chat
  import Session
  import ContactRow

  /** After the contact list is loaded, each contact's row shows exactly the number of
      messages from that contact the server still has unseen, and a badge exactly when
      there is at least one. */
  lemma BadgeShowsServerCount(
    s: Chat.ChatState, users: seq<User>, store: seq<Message>, me: UserId,
    online: seq<UserId>, u: User)
    requires u in users && u.id != me
    ensures var loaded := Chat.GetUsers(s, Ok(GetSidebar(users, store, me))).state;
            var row := ContactRow.Derive(u.id, online, loaded.unseen);
            && row.unseen == |UnseenFrom(store, u.id, me)|
            && (row.showBadge <==> |UnseenFrom(store, u.id, me)| > 0)
  {
  }

  /** Opening the conversation with `sel` and reloading the contact list clears `sel`'s
      badge and leaves every other contact's counter as it was. */
  lemma OpeningClearsBadge(
    s: Chat.ChatState, users: seq<User>, store: seq<Message>, me: UserId, sel: UserId,
    online: seq<UserId>, u: User)
    requires u in users && u.id != me
    ensures var before := Chat.GetUsers(s, Ok(GetSidebar(users, store, me))).state;
            var afterOpen := GetAllMessages(store, me, sel).store;
            var after := Chat.GetUsers(s, Ok(GetSidebar(users, afterOpen, me))).state;
            && (u.id == sel ==> !ContactRow.Derive(u.id, online, after.unseen).showBadge)
            && (u.id != sel ==>
                  ContactRow.Derive(u.id, online, after.unseen).unseen ==
                  ContactRow.Derive(u.id, online, before.unseen).unseen)
  {
  }

  /** A live message from a contact whose thread is not open raises the client's counter
      for that contact in step with the server: if the counter agreed with the server's
      unseen count before the send, it agrees after the push is handled. */
  lemma LiveCounterTracksServer(
    s: Chat.ChatState, store: seq<Message>, registry: Registry, sender: UserId, me: UserId,
    body: SendBody, upload: string -> Option<string>, newId: MsgId)
    requires SendMessage(store, registry, sender, me, body, upload, newId).Sent?
    requires !Chat.IsOpenWith(s, sender)
    requires CountOf(s.unseen, sender) == |UnseenFrom(store, sender, me)|
    ensures var sent := SendMessage(store, registry, sender, me, body, upload, newId);
            CountOf(Chat.HandleNewMessage(s, sent.message).state.unseen, sender) ==
              |UnseenFrom(sent.store, sender, me)|
  {
    SendAddsOneUnseen(store, registry, sender, me, body, upload, newId, sender, me);
  }

  /** A live message arriving while its sender's thread is open asks the server to mark
      exactly that message seen; once the server does, the message is stored as seen and
      the server's unseen count from that sender is what it was before the send. */
  lemma LiveReceiptKeepsServerCount(
    s: Chat.ChatState, store: seq<Message>, registry: Registry, sender: UserId, me: UserId,
    body: SendBody, upload: string -> Option<string>, newId: MsgId)
    requires SendMessage(store, registry, sender, me, body, upload, newId).Sent?
    requires Chat.IsOpenWith(s, sender)
    requires forall i :: 0 <= i < |store| ==> store[i].id != newId
    ensures var sent := SendMessage(store, registry, sender, me, body, upload, newId);
            var step := Chat.HandleNewMessage(s, sent.message);
            && step.effects == [Chat.RequestMarkSeen(newId)]
            && var marked := MarkMsgAsSeen(sent.store, newId).store;
               && marked[|store|] == sent.message.(seen := true)
               && UnseenFrom(marked, sender, me) == UnseenFrom(store, sender, me)
  {
    var sent := SendMessage(store, registry, sender, me, body, upload, newId);
    var m := sent.message;
    var marked := MarkSeen(store + [m], newId);
    assert MarkSeen([m], newId) == [m.(seen := true)];
    assert marked == store + [m.(seen := true)];
    UnseenFromAppend(store, [m.(seen := true)], sender, me);
    assert UnseenFrom([m.(seen := true)], sender, me) == [];
  }

  /** The status label of a contact follows the last presence snapshot alone. */
  lemma OnlineLabelFollowsPresence(
    s: Session.SessionState, earlier: seq<UserId>, latest: seq<UserId>, id: UserId, unseen: map<UserId, nat>)
    ensures var shown := Session.Presence(Session.Presence(s, earlier), latest);
            ContactRow.Derive(id, shown.onlineUsers, unseen).status == (if id in latest then "Online" else "Offline")
  {
  }

  /** After a successful profile update the client's signed-in user is the record the server
      stored for `me`, carrying the submitted bio and full name. */
  lemma ProfileUpdateShowsStoredRecord(
    s: Session.SessionState, users: seq<User>, me: UserId, form: ProfileForm,
    upload: string -> Option<string>)
    requires Users.UpdateProfile(users, me, form, upload).response.ProfileUpdated?
    requires Users.UpdateProfile(users, me, form, upload).response.user.Some?
    ensures var server := Users.UpdateProfile(users, me, form, upload);
            var client := Session.UpdateProfile(s, Ok(server.response.user.value)).state;
            && client.authUser == server.response.user
            && client.authUser.value in server.users
            && client.authUser.value.id == me
            && client.authUser.value.bio == form.bio
            && client.authUser.value.fullName == form.fullName
  {
    var server := Users.UpdateProfile(users, me, form, upload);
    var u := server.response.user.value;
    var i :| 0 <= i < |server.users| && server.users[i] == u;
    assert users[i].id == me;
  }
}
