/** One row of the contact list: whether the contact is online, its unseen counter, the
    badge and the status label. */
module ContactRow {
  import opened Wrappers
  import opened Users

  datatype Row = Row(isOnline: bool, unseen: nat, showBadge: bool, status: string)

  /** The row of contact `id` given the presence list and the unseen counters. Ids are
      strings throughout the model, so `String(id)` is `id` itself. */
  function Derive(id: UserId, onlineUsers: seq<UserId>, unseenMsg: map<UserId, nat>): (r: Row)
    ensures r.isOnline <==> id in onlineUsers
    ensures r.unseen == (if id in unseenMsg then unseenMsg[id] else 0)
    ensures r.showBadge <==> id in unseenMsg && unseenMsg[id] > 0
    ensures r.status == "Online" <==> r.isOnline
    ensures r.status == "Offline" <==> !r.isOnline
  {
    var isOnline := id in onlineUsers;
    var count := CountOf(unseenMsg, id);
    Row(isOnline, count, count > 0, if isOnline then "Online" else "Offline")
  }
}
