/** The client's chat state: the open thread, the contact list, the per-contact unseen
    counters and the selected contact, with the transitions that requests, live events
    and selection changes make. Notifications and requests a transition starts are its
    output effects. */
module Chat {
  import opened Wrappers
  import opened Api
  import opened Users
  import opened Messages

  datatype ChatState = ChatState(
    messages: seq<Message>,
    users: seq<Profile>,
    unseen: map<UserId, nat>,
    selected: Option<Profile>)

  const Initial := ChatState([], [], map[], None)

  /** What a transition asks of the outside world. */
  datatype Effect =
    | RequestMarkSeen(id: MsgId)
    | RequestHistory(with: UserId)
    | RequestSend(to: UserId)
    | NotifySuccess(text: string)
    | NotifyError(text: string)

  datatype Step = Step(state: ChatState, effects: seq<Effect>)

  const MsgUsersFailed := "Failed to get users."
  const MsgHistoryFailed := "Failed to get messages."
  const MsgSendFailed := "Failed to send message."

  /** The thread that is open, if any, is with `sender`. */
  predicate IsOpenWith(s: ChatState, sender: UserId) {
    s.selected.Some? && s.selected.value.id == sender
  }

  /** A "newMessage" event on the socket. */
  function HandleNewMessage(s: ChatState, m: Message): (r: Step)
    ensures r.state.users == s.users && r.state.selected == s.selected
    ensures IsOpenWith(s, m.sender) ==>
              && r.state.messages == s.messages + [m.(seen := true)]
              && r.effects == [RequestMarkSeen(m.id)]
              && r.state.unseen == s.unseen
    ensures !IsOpenWith(s, m.sender) ==>
              && r.state.messages == s.messages
              && m.sender in r.state.unseen
              && r.state.unseen[m.sender] == CountOf(s.unseen, m.sender) + 1
              && (forall k :: k != m.sender ==> (k in r.state.unseen <==> k in s.unseen))
              && (forall k :: k != m.sender && k in s.unseen ==> r.state.unseen[k] == s.unseen[k])
              && r.effects == [NotifySuccess("New message from " + m.sender)]
  {
    if IsOpenWith(s, m.sender) then
      Step(s.(messages := s.messages + [m.(seen := true)]), [RequestMarkSeen(m.id)])
    else
      Step(s.(unseen := s.unseen[m.sender := CountOf(s.unseen, m.sender) + 1]),
           [NotifySuccess("New message from " + m.sender)])
  }

  /** `sendMsg`, when it is called: the recipient is the contact selected at that moment.
      With no contact selected the request is never made: reading the selected id throws
      inside the handler and the generic failure is shown. */
  function SendMsg(s: ChatState): (r: Step)
    ensures r.state == s
    ensures s.selected.Some? ==> r.effects == [RequestSend(s.selected.value.id)]
    ensures s.selected.None? ==> r.effects == [NotifyError(MsgSendFailed)]
  {
    match s.selected
    case Some(p) => Step(s, [RequestSend(p.id)])
    case None => Step(s, [NotifyError(MsgSendFailed)])
  }

  /** `sendMsg`, when the answer of POST /api/messages/send/<recipient> arrives: a created
      message is appended to whatever thread is shown at that moment, whoever is selected. */
  function SendMsgReply(s: ChatState, reply: Reply<Message>): (r: Step)
    ensures r.state.users == s.users && r.state.unseen == s.unseen && r.state.selected == s.selected
    ensures reply.Ok? ==> r.state.messages == s.messages + [reply.value] && r.effects == []
    ensures !reply.Ok? ==> r.state.messages == s.messages && |r.effects| == 1 && r.effects[0].NotifyError?
    ensures reply.Refused? ==> r.effects == [NotifyError(reply.message)]
    ensures reply.Thrown? ==> r.effects == [NotifyError(ErrorText(reply.serverMessage, MsgSendFailed))]
  {
    match reply
    case Ok(m) => Step(s.(messages := s.messages + [m]), [])
    case Refused(text) => Step(s, [NotifyError(text)])
    case Thrown(text) => Step(s, [NotifyError(ErrorText(text, MsgSendFailed))])
  }

  /** `getUsers`: the answer of GET /api/messages/users. */
  function GetUsers(s: ChatState, reply: Reply<Sidebar>): (r: Step)
    ensures r.state.messages == s.messages && r.state.selected == s.selected
    ensures reply.Ok? ==> r.state.users == reply.value.users && r.state.unseen == reply.value.unseen && r.effects == []
    ensures reply.Refused? ==> r == Step(s, [])
    ensures reply.Thrown? ==> r == Step(s, [NotifyError(ErrorText(reply.serverMessage, MsgUsersFailed))])
  {
    match reply
    case Ok(data) => Step(s.(users := data.users, unseen := data.unseen), [])
    case Refused(_) => Step(s, [])
    case Thrown(text) => Step(s, [NotifyError(ErrorText(text, MsgUsersFailed))])
  }

  /** `getMessages`: the answer of GET /api/messages/:id. */
  function GetMessages(s: ChatState, reply: Reply<seq<Message>>): (r: Step)
    ensures r.state.users == s.users && r.state.unseen == s.unseen && r.state.selected == s.selected
    ensures reply.Ok? ==> r.state.messages == reply.value && r.effects == []
    ensures !reply.Ok? ==> r.state.messages == s.messages
    ensures reply.Refused? ==> r == Step(s, [])
    ensures reply.Thrown? ==> r.effects == [NotifyError(ErrorText(reply.serverMessage, MsgHistoryFailed))]
  {
    match reply
    case Ok(history) => Step(s.(messages := history), [])
    case Refused(_) => Step(s, [])
    case Thrown(text) => Step(s, [NotifyError(ErrorText(text, MsgHistoryFailed))])
  }

  /** A selection and the effect it triggers. The effect runs only when the selection
      changes: selecting another contact requests its history (the thread is replaced
      when the answer arrives); clearing the selection empties the thread at once;
      setting the selection it already has does nothing. */
  function Select(s: ChatState, sel: Option<Profile>): (r: Step)
    ensures r.state.selected == sel && r.state.users == s.users && r.state.unseen == s.unseen
    ensures sel == s.selected ==> r == Step(s, [])
    ensures sel != s.selected && sel.None? ==> r.state.messages == [] && r.effects == []
    ensures sel != s.selected && sel.Some? ==>
              r.state.messages == s.messages && r.effects == [RequestHistory(sel.value.id)]
  {
    if sel == s.selected then Step(s, [])
    else match sel
      case None => Step(s.(selected := None, messages := []), [])
      case Some(p) => Step(s.(selected := sel), [RequestHistory(p.id)])
  }

  /** Every message shown belongs to the conversation of `me` with the selected contact
      (and none is shown while no contact is selected). */
  predicate ThreadWith(s: ChatState, me: UserId) {
    && (s.messages != [] ==> s.selected.Some?)
    && (s.selected.Some? ==> forall i :: 0 <= i < |s.messages| ==> Between(s.messages[i], me, s.selected.value.id))
  }

  /** The thread invariant holds at start-up and after a selected contact is cleared. */
  lemma ThreadWithBase(s: ChatState, me: UserId)
    ensures ThreadWith(Initial, me)
    ensures s.selected.Some? ==> ThreadWith(Select(s, None).state, me)
  {
  }

  /** The history the server answers for the selected contact establishes the invariant. */
  lemma HistoryEstablishesThread(s: ChatState, store: seq<Message>, me: UserId)
    requires s.selected.Some?
    ensures ThreadWith(GetMessages(s, Ok(GetAllMessages(store, me, s.selected.value.id).messages)).state, me)
  {
    var history := GetAllMessages(store, me, s.selected.value.id).messages;
    assert forall i :: 0 <= i < |history| ==> history[i] in history;
  }

  /** A live message addressed to `me` keeps the invariant: it joins the thread only when
      its sender is the selected contact. */
  lemma LiveMessageKeepsThread(s: ChatState, me: UserId, m: Message)
    requires ThreadWith(s, me) && m.receiver == me
    ensures ThreadWith(HandleNewMessage(s, m).state, me)
  {
    var r := HandleNewMessage(s, m).state;
    if IsOpenWith(s, m.sender) {
      assert r.messages == s.messages + [m.(seen := true)];
      forall i | 0 <= i < |r.messages|
        ensures Between(r.messages[i], me, r.selected.value.id)
      {
        if i < |s.messages| {
          assert r.messages[i] == s.messages[i];
        }
      }
    }
  }

  /** A send to the selected contact whose answer arrives while that contact is still
      selected keeps the invariant: the stored message belongs to that conversation. */
  lemma SentMessageKeepsThread(
    s: ChatState, me: UserId, store: seq<Message>, registry: Registry, body: SendBody,
    upload: string -> Option<string>, newId: MsgId)
    requires ThreadWith(s, me) && s.selected.Some?
    requires SendMessage(store, registry, me, s.selected.value.id, body, upload, newId).Sent?
    ensures SendMsg(s).effects == [RequestSend(s.selected.value.id)]
    ensures ThreadWith(SendMsgReply(s, Ok(SendMessage(store, registry, me, s.selected.value.id, body, upload, newId).message)).state, me)
  {
  }

  /** A send whose answer arrives after the selection changed: the message to the old
      contact is appended under the new selection (or with nobody selected, to the cleared
      thread), and the invariant is broken. */
  lemma ReplyAfterSelectionChange(
    s: ChatState, me: UserId, sel: Option<Profile>, store: seq<Message>, registry: Registry,
    body: SendBody, upload: string -> Option<string>, newId: MsgId)
    requires s.selected.Some? && (sel.None? || sel.value.id != s.selected.value.id)
    requires SendMessage(store, registry, me, s.selected.value.id, body, upload, newId).Sent?
    ensures var m := SendMessage(store, registry, me, s.selected.value.id, body, upload, newId).message;
            var moved := Select(SendMsg(s).state, sel).state;
            var landed := SendMsgReply(moved, Ok(m)).state;
            && SendMsg(s).effects == [RequestSend(s.selected.value.id)]
            && landed.selected == sel
            && landed.messages == (if sel.None? then [m] else s.messages + [m])
            && !ThreadWith(landed, me)
  {
    var m := SendMessage(store, registry, me, s.selected.value.id, body, upload, newId).message;
    var landed := SendMsgReply(Select(SendMsg(s).state, sel).state, Ok(m)).state;
    assert landed.messages[|landed.messages| - 1] == m;
  }

  /** A shown message that belongs to the conversation with another contact breaks the
      invariant. */
  lemma StrayMessageBreaksThread(t: ChatState, me: UserId, other: UserId, m: Message)
    requires t.selected.Some? && t.selected.value.id != other
    requires m in t.messages && Between(m, me, other)
    ensures !ThreadWith(t, me)
  {
    var k :| 0 <= k < |t.messages| && t.messages[k] == m;
    assert !Between(t.messages[k], me, t.selected.value.id);
  }

  /** Clearing a selection that is already clear does nothing, so a reply that landed after
      the first clear stays on screen with no contact selected. */
  lemma SecondDeselectKeepsLateReply(
    s: ChatState, me: UserId, store: seq<Message>, registry: Registry,
    body: SendBody, upload: string -> Option<string>, newId: MsgId)
    requires s.selected.Some?
    requires SendMessage(store, registry, me, s.selected.value.id, body, upload, newId).Sent?
    ensures var m := SendMessage(store, registry, me, s.selected.value.id, body, upload, newId).message;
            var landed := SendMsgReply(Select(SendMsg(s).state, None).state, Ok(m)).state;
            var again := Select(landed, None);
            && again.effects == []
            && again.state.selected.None?
            && again.state.messages == [m]
            && !ThreadWith(again.state, me)
  {
    ReplyAfterSelectionChange(s, me, None, store, registry, body, upload, newId);
  }

  /** A history answer that arrives after the user has moved on replaces the thread of the
      contact now selected: selecting x, then y before x's history is in, shows x's messages
      under y. */
  lemma LateHistoryReplacesThread(s: ChatState, me: UserId, x: Profile, y: Profile, store: seq<Message>)
    requires s.selected != Some(x) && x.id != y.id
    requires exists i :: 0 <= i < |store| && Between(store[i], me, x.id)
    ensures var first := Select(s, Some(x));
            var second := Select(first.state, Some(y));
            var late := GetMessages(second.state, Ok(GetAllMessages(store, me, x.id).messages)).state;
            && first.effects == [RequestHistory(x.id)]
            && second.effects == [RequestHistory(y.id)]
            && late.selected == Some(y)
            && !ThreadWith(late, me)
  {
    var i :| 0 <= i < |store| && Between(store[i], me, x.id);
    var history := GetAllMessages(store, me, x.id).messages;
    assert store[i] in history;
    var first := Select(s, Some(x));
    var second := Select(first.state, Some(y));
    assert second == Step(first.state.(selected := Some(y)), [RequestHistory(y.id)]);
    var late := GetMessages(second.state, Ok(history)).state;
    assert late == second.state.(messages := history);
    StrayMessageBreaksThread(late, me, x.id, store[i]);
  }

  /** Switching to another contact keeps the previous thread until the new history arrives;
      when that request fails, the previous contact's messages stay on screen under the new
      contact and the invariant is broken. */
  lemma FailedFetchKeepsStaleThread(s: ChatState, me: UserId, q: Profile, error: Option<string>)
    requires ThreadWith(s, me) && s.selected.Some? && s.selected.value.id != q.id && s.messages != []
    ensures var switched := Select(s, Some(q));
            var failed := GetMessages(switched.state, Thrown(error)).state;
            && switched.effects == [RequestHistory(q.id)]
            && failed.selected == Some(q)
            && failed.messages == s.messages
            && !ThreadWith(failed, me)
  {
    var failed := GetMessages(Select(s, Some(q)).state, Thrown(error)).state;
    assert !Between(failed.messages[0], me, q.id);
  }

  /** Live messages from contacts whose thread is not open only ever raise counters:
      after a run of them, each sender's counter has grown by its number of messages. */
  lemma {:induction false} BackgroundMessagesAccumulate(s: ChatState, ms: seq<Message>, k: UserId)
    requires forall i :: 0 <= i < |ms| ==> !IsOpenWith(s, ms[i].sender)
    ensures CountOf(Deliver(s, ms).unseen, k) == CountOf(s.unseen, k) + |SentBy(ms, k)|
    ensures Deliver(s, ms).messages == s.messages
    decreases |ms|
  {
    if ms != [] {
      var s' := HandleNewMessage(s, ms[0]).state;
      assert s'.selected == s.selected;
      BackgroundMessagesAccumulate(s', ms[1..], k);
    }
  }

  /** The state after a run of live messages, in order. */
  function Deliver(s: ChatState, ms: seq<Message>): ChatState
    decreases |ms|
  {
    if ms == [] then s else Deliver(HandleNewMessage(s, ms[0]).state, ms[1..])
  }

  function SentBy(ms: seq<Message>, k: UserId): seq<Message> {
    if ms == [] then [] else (if ms[0].sender == k then [ms[0]] else []) + SentBy(ms[1..], k)
  }
}
