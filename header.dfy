/** `components/Header.tsx`: the notification bell (unread count, list,
    mark-all-read), the greeting and logout. */
module Header {
  import opened Wrappers
  import opened Text
  import opened Types
  import AppContext

  /** A notification (`NotificationItem`); `readAt` is missing while unread. */
  datatype NotificationItem = NotificationItem(id: int, title: string, body: string, readAt: Option<string>)

  /** An item marked read: its read time kept when it has one, else now. */
  function MarkRead(i: NotificationItem, now: string): (r: NotificationItem)
    ensures r.(readAt := i.readAt) == i
    ensures HasText(i.readAt) ==> r.readAt == i.readAt
    ensures !HasText(i.readAt) ==> r.readAt == Some(now)
  {
    i.(readAt := if HasText(i.readAt) then i.readAt else Some(now))
  }

  /** Every item marked read at `now`, keeping the time of those already read. */
  function MarkAllRead(items: seq<NotificationItem>, now: string): (r: seq<NotificationItem>)
    ensures |r| == |items|
    ensures forall k :: 0 <= k < |items| ==> r[k] == MarkRead(items[k], now)
  {
    seq(|items|, k requires 0 <= k < |items| => MarkRead(items[k], now))
  }

  /** With a non-empty time stamp every item is read afterwards, each item
      keeps its id, title and body in place, and an item read before keeps
      its time. */
  lemma MarkAllReadSetsAll(items: seq<NotificationItem>, now: string)
    requires now != ""
    ensures forall k :: 0 <= k < |items| ==> HasText(MarkAllRead(items, now)[k].readAt)
    ensures forall k :: 0 <= k < |items| ==>
              MarkAllRead(items, now)[k].id == items[k].id && MarkAllRead(items, now)[k].title == items[k].title &&
              MarkAllRead(items, now)[k].body == items[k].body
  {
  }

  /** Marking everything read a second time, at whatever time, changes
      nothing. */
  lemma MarkAllReadIdempotent(items: seq<NotificationItem>, now: string, later: string)
    requires now != ""
    ensures MarkAllRead(MarkAllRead(items, now), later) == MarkAllRead(items, now)
  {
  }

  /** The badge with the unread count is shown only when there is one. */
  function BadgeShown(unread: int): (b: bool)
    ensures unread <= 0 ==> !b
    ensures unread >= 1 ==> b
  {
    unread > 0
  }

  /** The greeting: `name.split(' ')[0]`. */
  function FirstName(name: string): (r: string)
    ensures ' ' !in r
    ensures r <= name
    ensures |r| < |name| ==> name[|r|] == ' '
    ensures ' ' !in name ==> r == name
  {
    SplitFirstPiece(name, ' ');
    Split(name, ' ')[0]
  }

  /** The bell's state. */
  class NotificationBell {
    var unread: int
    var items: seq<NotificationItem>
    var open: bool

    constructor ()
      ensures unread == 0 && items == [] && !open
    {
      unread := 0;
      items := [];
      open := false;
    }

    /** Without a token there is nothing to show; otherwise the count and the
        list come from the server, and a failed request leaves both as they
        were. */
    method Load(token: Option<string>, remote: Result<(int, seq<NotificationItem>), string>)
      modifies this
      ensures !HasText(token) ==> unread == 0 && items == []
      ensures HasText(token) && remote.Success? ==> unread == remote.value.0 && items == remote.value.1
      ensures HasText(token) && remote.Failure? ==> unread == old(unread) && items == old(items)
      ensures open == old(open)
    {
      if !HasText(token) {
        unread := 0;
        items := [];
        return;
      }
      match remote {
        case Success(answer) =>
          unread := answer.0;
          items := answer.1;
        case Failure(_) =>
      }
    }

    /** Once the server has marked everything read, the count drops to zero
        and every item is marked read at `now`; without a token, or when the
        server call fails, nothing changes. */
    method MarkAll(token: Option<string>, now: string, remoteOk: bool)
      modifies this
      ensures HasText(token) && remoteOk ==> unread == 0 && items == MarkAllRead(old(items), now) && !BadgeShown(unread)
      ensures !HasText(token) || !remoteOk ==> unread == old(unread) && items == old(items)
      ensures open == old(open)
    {
      if !HasText(token) {
        return;
      }
      if remoteOk {
        unread := 0;
        items := MarkAllRead(items, now);
      }
    }

    /** The bell button opens the list when it is closed and closes it when open. */
    method Toggle()
      modifies this
      ensures open == !old(open) && unread == old(unread) && items == old(items)
    {
      open := !open;
    }

    /** The logout button ends the session. */
    method HandleLogout(store: AppContext.Store)
      modifies store
      ensures store.currentUser == None && store.token == None
      ensures store.users == old(store.users) && store.projects == old(store.projects)
      ensures store.skillSwaps == old(store.skillSwaps) && store.error == old(store.error)
    {
      store.Logout();
    }
  }
}
