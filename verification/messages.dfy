/** The message store behind the messaging routes: contact list with unseen counts,
    conversation history with its bulk mark-as-seen, single mark-as-seen, and send with
    the live push to the receiver's socket. The store is the message collection in
    insertion order; the socket registry is an input map from user id to socket id. */
module Messages {
  import opened Wrappers
  import opened Users

  type MsgId = string
  type SocketId = string

  /** A stored message. `text` and `image` are absent when the request did not supply them. */
  datatype Message = Message(
    id: MsgId,
    sender: UserId,
    receiver: UserId,
    text: Option<string>,
    image: Option<string>,
    seen: bool)

  /** Which socket each connected user currently has. */
  type Registry = map<UserId, SocketId>

  /** One live "newMessage" event sent to one socket. */
  datatype Push = Push(socket: SocketId, message: Message)

  /** Message ids are unique, as document ids are. */
  ghost predicate UniqueIds(store: seq<Message>) {
    forall i, j :: 0 <= i < j < |store| ==> store[i].id != store[j].id
  }

  predicate FromTo(m: Message, from: UserId, to: UserId) {
    m.sender == from && m.receiver == to
  }

  /** The message belongs to the two-party conversation of `a` and `b`. */
  predicate Between(m: Message, a: UserId, b: UserId) {
    FromTo(m, a, b) || FromTo(m, b, a)
  }

  // ---------------------------------------------------------------------------
  // GET /api/messages/users
  // ---------------------------------------------------------------------------

  /** Every user except `me`, without the password field, in store order. */
  function Contacts(users: seq<User>, me: UserId): (r: seq<Profile>)
    ensures |r| <= |users|
    ensures forall i :: 0 <= i < |r| ==> r[i].id != me
    ensures forall u :: u in users && u.id != me ==> Public(u) in r
    ensures forall p :: p in r ==> exists u :: u in users && u.id != me && Public(u) == p
  {
    if users == [] then []
    else (if users[0].id == me then [] else [Public(users[0])]) + Contacts(users[1..], me)
  }

  /** The messages from `from` to `to` that are not yet seen. */
  function UnseenFrom(store: seq<Message>, from: UserId, to: UserId): (r: seq<Message>)
    ensures |r| <= |store|
    ensures forall m :: m in r <==> m in store && FromTo(m, from, to) && !m.seen
  {
    if store == [] then []
    else
      var m := store[0];
      (if FromTo(m, from, to) && !m.seen then [m] else []) + UnseenFrom(store[1..], from, to)
  }

  function IdsOf(contacts: seq<Profile>): (ids: set<UserId>)
    ensures forall p :: p in contacts ==> p.id in ids
    ensures forall k :: k in ids ==> exists p :: p in contacts && p.id == k
  {
    if contacts == [] then {} else {contacts[0].id} + IdsOf(contacts[1..])
  }

  /** The per-contact loop of the contact-list handler: an entry for a contact exactly
      when it has unseen messages to `me`, holding their number. */
  function UnseenCounts(store: seq<Message>, contacts: seq<Profile>, me: UserId): (r: map<UserId, nat>)
    ensures forall k :: k in r <==> k in IdsOf(contacts) && |UnseenFrom(store, k, me)| > 0
    ensures forall k :: k in r ==> r[k] == |UnseenFrom(store, k, me)|
  {
    if contacts == [] then map[]
    else
      var k := contacts[0].id;
      var n := |UnseenFrom(store, k, me)|;
      var rest := UnseenCounts(store, contacts[1..], me);
      if n > 0 then rest[k := n] else rest
  }

  datatype Sidebar = Sidebar(users: seq<Profile>, unseen: map<UserId, nat>)

  /** GET /api/messages/users for the authenticated user `me`. */
  function GetSidebar(users: seq<User>, store: seq<Message>, me: UserId): (r: Sidebar)
    ensures forall i :: 0 <= i < |r.users| ==> r.users[i].id != me
    ensures forall u :: u in users && u.id != me ==> Public(u) in r.users
    ensures me !in r.unseen
    ensures forall k :: k in r.unseen ==> 0 < r.unseen[k] == |UnseenFrom(store, k, me)|
    ensures forall u :: u in users && u.id != me ==> (u.id in r.unseen <==> |UnseenFrom(store, u.id, me)| > 0)
  {
    var contacts := Contacts(users, me);
    Sidebar(contacts, UnseenCounts(store, contacts, me))
  }

  // ---------------------------------------------------------------------------
  // GET /api/messages/:id
  // ---------------------------------------------------------------------------

  /** The two-party conversation of `me` and `sel`, in store order. */
  function Conversation(store: seq<Message>, me: UserId, sel: UserId): (r: seq<Message>)
    ensures |r| <= |store|
    ensures forall m :: m in r <==> m in store && Between(m, me, sel)
  {
    if store == [] then []
    else
      var m := store[0];
      (if Between(m, me, sel) then [m] else []) + Conversation(store[1..], me, sel)
  }

  /** The bulk update of opening a conversation: every unseen message from `sel` to `me`
      becomes seen, and nothing else changes. */
  function MarkConversationSeen(store: seq<Message>, me: UserId, sel: UserId): (r: seq<Message>)
    ensures |r| == |store|
    ensures forall i :: 0 <= i < |store| ==> r[i].(seen := store[i].seen) == store[i]
    ensures forall i :: 0 <= i < |store| ==> r[i].seen == (store[i].seen || FromTo(store[i], sel, me))
  {
    if store == [] then []
    else
      var m := store[0];
      [if FromTo(m, sel, me) && !m.seen then m.(seen := true) else m] + MarkConversationSeen(store[1..], me, sel)
  }

  /** The answer of a history request and the store it leaves behind. */
  datatype History = History(messages: seq<Message>, store: seq<Message>)

  /** GET /api/messages/:sel for the authenticated user `me`: the query runs first and
      the bulk update second, so the answer is the snapshot from before the update. */
  function GetAllMessages(store: seq<Message>, me: UserId, sel: UserId): (r: History)
    ensures forall m :: m in r.messages <==> m in store && Between(m, me, sel)
    ensures |r.store| == |store|
    ensures forall i :: 0 <= i < |store| ==> r.store[i].(seen := store[i].seen) == store[i]
    ensures UnseenFrom(r.store, sel, me) == []
    ensures forall from, to :: from != sel || to != me ==> UnseenFrom(r.store, from, to) == UnseenFrom(store, from, to)
  {
    var snapshot := Conversation(store, me, sel);
    var after := MarkConversationSeen(store, me, sel);
    OpenClearsUnseen(store, me, sel);
    assert forall from, to :: from != sel || to != me ==> UnseenFrom(after, from, to) == UnseenFrom(store, from, to) by {
      forall from, to | from != sel || to != me
        ensures UnseenFrom(after, from, to) == UnseenFrom(store, from, to)
      {
        OpenKeepsOtherUnseen(store, me, sel, from, to);
      }
    }
    History(snapshot, after)
  }

  /** After a conversation is opened, nothing from the other party to `me` is unseen. */
  lemma {:induction false} OpenClearsUnseen(store: seq<Message>, me: UserId, sel: UserId)
    ensures UnseenFrom(MarkConversationSeen(store, me, sel), sel, me) == []
  {
    if store != [] {
      OpenClearsUnseen(store[1..], me, sel);
    }
  }

  /** Opening a conversation leaves the unseen messages of every other pair of users alone. */
  lemma {:induction false} OpenKeepsOtherUnseen(store: seq<Message>, me: UserId, sel: UserId, from: UserId, to: UserId)
    requires from != sel || to != me
    ensures UnseenFrom(MarkConversationSeen(store, me, sel), from, to) == UnseenFrom(store, from, to)
  {
    if store != [] {
      OpenKeepsOtherUnseen(store[1..], me, sel, from, to);
    }
  }

  /** Both parties see the same conversation. */
  lemma {:induction false} ConversationSymmetric(store: seq<Message>, a: UserId, b: UserId)
    ensures Conversation(store, a, b) == Conversation(store, b, a)
  {
    if store != [] {
      ConversationSymmetric(store[1..], a, b);
    }
  }

  /** Each message as the bulk update of opening the conversation leaves it. */
  function FlipAll(ms: seq<Message>, me: UserId, sel: UserId): (r: seq<Message>)
    ensures |r| == |ms|
    ensures forall i :: 0 <= i < |ms| ==> r[i] == ms[i].(seen := ms[i].seen || FromTo(ms[i], sel, me))
  {
    if ms == [] then []
    else
      var m := ms[0];
      [if FromTo(m, sel, me) && !m.seen then m.(seen := true) else m] + FlipAll(ms[1..], me, sel)
  }

  /** The conversation read after the bulk update is the one read before it, flipped. */
  lemma {:induction false} ConversationAfterOpen(store: seq<Message>, me: UserId, sel: UserId)
    ensures Conversation(MarkConversationSeen(store, me, sel), me, sel) == FlipAll(Conversation(store, me, sel), me, sel)
  {
    if store != [] {
      var m := store[0];
      var marked := MarkConversationSeen(store, me, sel);
      var rest := Conversation(store[1..], me, sel);
      ConversationAfterOpen(store[1..], me, sel);
      assert marked[1..] == MarkConversationSeen(store[1..], me, sel);
      assert Between(marked[0], me, sel) == Between(m, me, sel);
      if Between(m, me, sel) {
        assert ([m] + rest)[1..] == rest;
      } else {
        assert Conversation(store, me, sel) == rest;
      }
    }
  }

  /** The history returned differs from the conversation as stored afterwards exactly in
      the `seen` flag of the messages from `sel` to `me`: the answer predates the update. */
  lemma HistoryIsPreFlip(store: seq<Message>, me: UserId, sel: UserId)
    ensures var before := GetAllMessages(store, me, sel).messages;
            var after := Conversation(GetAllMessages(store, me, sel).store, me, sel);
            && |after| == |before|
            && forall i :: 0 <= i < |before| ==>
                 after[i] == before[i].(seen := before[i].seen || FromTo(before[i], sel, me))
  {
    ConversationAfterOpen(store, me, sel);
  }

  // ---------------------------------------------------------------------------
  // PUT /api/messages/mark/:id
  // ---------------------------------------------------------------------------

  /** `findByIdAndUpdate(id, { seen: true })`. */
  function MarkSeen(store: seq<Message>, id: MsgId): (r: seq<Message>)
    ensures |r| == |store|
    ensures forall i :: 0 <= i < |store| ==> r[i].(seen := store[i].seen) == store[i]
    ensures forall i :: 0 <= i < |store| ==> r[i].seen == (store[i].seen || store[i].id == id)
  {
    if store == [] then []
    else [if store[0].id == id then store[0].(seen := true) else store[0]] + MarkSeen(store[1..], id)
  }

  /** The store after a single mark-as-seen and the `success` flag of its answer. */
  datatype Ack = Ack(store: seq<Message>, success: bool)

  /** PUT /api/messages/mark/:id: marks one message seen and reports success whether or not
      a message with that id exists. */
  function MarkMsgAsSeen(store: seq<Message>, id: MsgId): (r: Ack)
    ensures r.success
    ensures (forall i :: 0 <= i < |store| ==> store[i].id != id) ==> r.store == store
    ensures |r.store| == |store|
    ensures forall i :: 0 <= i < |store| && store[i].id != id ==> r.store[i] == store[i]
    ensures forall i :: 0 <= i < |store| && store[i].id == id ==> r.store[i] == store[i].(seen := true)
    ensures UniqueIds(store) ==>
              forall i, j :: 0 <= i < j < |store| ==> r.store[i] == store[i] || r.store[j] == store[j]
  {
    Ack(MarkSeen(store, id), true)
  }

  /** Marking a message seen twice is the same as marking it once. */
  lemma MarkSeenIdempotent(store: seq<Message>, id: MsgId)
    ensures MarkSeen(MarkSeen(store, id), id) == MarkSeen(store, id)
  {
  }

  // ---------------------------------------------------------------------------
  // POST /api/messages/send/:id
  // ---------------------------------------------------------------------------

  /** The body of a send request; `image` is an image data URI. */
  datatype SendBody = SendBody(text: Option<string>, image: Option<string>)

  /** 201 with the created message, the new store and the live pushes made; or 500. */
  datatype SendResult = Sent(store: seq<Message>, message: Message, pushes: seq<Push>) | SendFailed

  /** POST /api/messages/send/:to by the authenticated user `me`. `upload` stands for the
      image host (None when it throws), `newId` for the id the store assigns. Neither the
      text nor the image is required, and the receiver id is not checked. */
  function SendMessage(
    store: seq<Message>, registry: Registry, me: UserId, to: UserId, body: SendBody,
    upload: string -> Option<string>, newId: MsgId): (r: SendResult)
    ensures r.SendFailed? <==> Filled(body.image) && upload(body.image.value).None?
    ensures r.Sent? ==>
              && r.store == store + [r.message]
              && r.message.id == newId
              && r.message.sender == me
              && r.message.receiver == to
              && r.message.text == body.text
              && !r.message.seen
              && (r.message.image.Some? <==> Filled(body.image))
              && (Filled(body.image) ==> r.message.image == upload(body.image.value))
    ensures r.Sent? ==> (r.pushes != [] <==> to in registry && registry[to] != "")
    ensures r.Sent? && r.pushes != [] ==> r.pushes == [Push(registry[to], r.message)]
    ensures r.Sent? && UniqueIds(store) && (forall i :: 0 <= i < |store| ==> store[i].id != newId) ==>
              UniqueIds(r.store)
  {
    if Filled(body.image) && upload(body.image.value).None? then SendFailed
    else
      var image := if Filled(body.image) then upload(body.image.value) else None;
      var m := Message(newId, me, to, body.text, image, false);
      var pushes := if to in registry && registry[to] != "" then [Push(registry[to], m)] else [];
      Sent(store + [m], m, pushes)
  }

  /** The handler stores a message with neither text nor image: nothing on the server
      requires either. */
  lemma EmptyMessageAccepted(
    store: seq<Message>, registry: Registry, me: UserId, to: UserId,
    upload: string -> Option<string>, newId: MsgId)
    ensures var r := SendMessage(store, registry, me, to, SendBody(None, None), upload, newId);
            r.Sent? && r.message.text.None? && r.message.image.None? && r.message in r.store
  {
  }

  lemma {:induction false} UnseenFromAppend(a: seq<Message>, b: seq<Message>, from: UserId, to: UserId)
    ensures UnseenFrom(a + b, from, to) == UnseenFrom(a, from, to) + UnseenFrom(b, from, to)
  {
    if a != [] {
      var head := if FromTo(a[0], from, to) && !a[0].seen then [a[0]] else [];
      assert (a + b)[0] == a[0];
      assert (a + b)[1..] == a[1..] + b;
      UnseenFromAppend(a[1..], b, from, to);
      assert UnseenFrom(a + b, from, to) == head + (UnseenFrom(a[1..], from, to) + UnseenFrom(b, from, to));
    } else {
      assert a + b == b;
    }
  }

  /** A sent message is one more unseen message from the sender to the receiver, and
      changes the unseen messages of no other pair. */
  lemma SendAddsOneUnseen(
    store: seq<Message>, registry: Registry, me: UserId, to: UserId, body: SendBody,
    upload: string -> Option<string>, newId: MsgId, from: UserId, to': UserId)
    requires SendMessage(store, registry, me, to, body, upload, newId).Sent?
    ensures var r := SendMessage(store, registry, me, to, body, upload, newId);
            UnseenFrom(r.store, from, to') ==
              UnseenFrom(store, from, to') + (if from == me && to' == to then [r.message] else [])
  {
    var r := SendMessage(store, registry, me, to, body, upload, newId);
    UnseenFromAppend(store, [r.message], from, to');
  }

  /** A sent message is part of the history the receiver fetches, as stored and not yet seen. */
  lemma SentIsInReceiversHistory(
    store: seq<Message>, registry: Registry, me: UserId, to: UserId, body: SendBody,
    upload: string -> Option<string>, newId: MsgId)
    requires SendMessage(store, registry, me, to, body, upload, newId).Sent?
    ensures var r := SendMessage(store, registry, me, to, body, upload, newId);
            r.message in GetAllMessages(r.store, to, me).messages && !r.message.seen
  {
  }
}
