/** The dashboard: the stat cards chosen by role, the unread-message count and the
    "Recent Tickets" list. A signed-in user is `Some(user)`; with nobody signed in
    `user?.id` and `user?.role` are `undefined`. */
module Dashboard {
  import opened Types
  import Seqs
  import opened Store
  import Messages
  import ViewRequests

  /** `user?.role === 'admin'` */
  predicate IsAdmin(user: Option<User>) {
    user.Some? && user.value.role == Admin
  }

  // ---------------------------------------------------------------- unread messages

  function UnreadTo(user: Option<User>): Message -> bool {
    m => user.Some? && Messages.UnreadBy(m, user.value.id)
  }

  /** `unreadMessages`: the messages addressed to the user and not yet read, in store
      order. */
  function UnreadMessages(ms: seq<Message>, user: Option<User>): (r: seq<Message>)
    ensures |r| <= |ms|
    ensures forall m :: m in r <==> m in ms && user.Some? && m.receiverId == user.value.id && !m.read
  {
    Seqs.Filter(ms, UnreadTo(user))
  }

  /** The dashboard's unread count agrees with the messaging view: it is the unread
      count of the user's whole message list, since a message addressed to the user
      involves the user. */
  lemma UnreadAgreesWithMessages(ms: seq<Message>, user: User)
    ensures |UnreadMessages(ms, Some(user))| ==
      Messages.UnreadCount(Messages.UserMessages(ms, user.id), user.id)
  {
    Seqs.FilterImplied(ms, Messages.UnreadFor(user.id), Messages.Involving(user.id));
    assert Seqs.Filter(ms, Messages.UnreadFor(user.id)) == Seqs.Filter(ms, UnreadTo(Some(user))) by {
      Seqs.FilterSameTest(ms, Messages.UnreadFor(user.id), UnreadTo(Some(user)));
    }
  }

  /** A message sent through the store raises its receiver's unread count by one and
      nobody else's. */
  lemma UnreadAfterSend(ms: seq<Message>, m: Message, user: Option<User>)
    requires !m.read
    ensures |UnreadMessages(ms + [m], user)| ==
      |UnreadMessages(ms, user)| + (if user.Some? && m.receiverId == user.value.id then 1 else 0)
  {
    Seqs.FilterAppend(ms, [m], UnreadTo(user));
  }

  /** Marking a message read never raises anybody's unread count. */
  lemma {:induction false} UnreadAfterMarkRead(ms: seq<Message>, id: string, user: Option<User>)
    ensures |UnreadMessages(MarkRead(ms, id), user)| <= |UnreadMessages(ms, user)|
  {
    if ms != [] {
      UnreadAfterMarkRead(ms[1..], id, user);
      assert MarkRead(ms, id) == [MarkRead(ms, id)[0]] + MarkRead(ms[1..], id);
    }
  }

  // ---------------------------------------------------------------- stat cards

  datatype StatCard = StatCard(title: string, value: nat)

  /** `adminStats`: all tickets, the pending ones among all tickets, and the lengths of
      the inventory and incident collections. */
  function AdminStats(ts: seq<Ticket>, inv: seq<InventoryItem>, inc: seq<IncidentReport>): (r: seq<StatCard>)
    ensures |r| == 4
    ensures r[0] == StatCard("Total Tickets", |ts|) && r[2] == StatCard("Inventory Items", |inv|)
    ensures r[1] == StatCard("Pending Tickets", ViewRequests.CountStatus(ts, "pending")) && r[1].value <= r[0].value
    ensures r[3] == StatCard("Incident Reports", |inc|)
  {
    [StatCard("Total Tickets", |ts|), StatCard("Pending Tickets", ViewRequests.CountStatus(ts, "pending")),
     StatCard("Inventory Items", |inv|), StatCard("Incident Reports", |inc|)]
  }

  /** The inventory card counts records, not stock: changing an item's quantity leaves
      every admin card as it was. */
  lemma InventoryCardIgnoresQuantity(ts: seq<Ticket>, inv: seq<InventoryItem>, inc: seq<IncidentReport>, i: int, q: int)
    requires 0 <= i < |inv|
    ensures AdminStats(ts, inv[i := inv[i].(quantity := q)], inc) == AdminStats(ts, inv, inc)
  {
  }

  /** `userStats`: the user's tickets, the pending and the completed ones among them,
      and the user's unread messages. */
  function UserStats(ts: seq<Ticket>, ms: seq<Message>, user: Option<User>): (r: seq<StatCard>)
    ensures |r| == 4
    ensures r[0] == StatCard("My Tickets", |ViewRequests.UserRequests(ts, user)|)
    ensures r[1] == StatCard("Pending", ViewRequests.CountStatus(ViewRequests.UserRequests(ts, user), "pending"))
    ensures r[2] == StatCard("Completed", ViewRequests.CountStatus(ViewRequests.UserRequests(ts, user), "completed"))
    ensures r[1].value + r[2].value <= r[0].value
    ensures r[3] == StatCard("Unread Messages", |UnreadMessages(ms, user)|)
  {
    var mine := ViewRequests.UserRequests(ts, user);
    PendingCompletedDisjoint(mine);
    [StatCard("My Tickets", |mine|), StatCard("Pending", ViewRequests.CountStatus(mine, "pending")),
     StatCard("Completed", ViewRequests.CountStatus(mine, "completed")),
     StatCard("Unread Messages", |UnreadMessages(ms, user)|)]
  }

  /** No ticket is both pending and completed. */
  lemma {:induction false} PendingCompletedDisjoint(ts: seq<Ticket>)
    ensures ViewRequests.CountStatus(ts, "pending") + ViewRequests.CountStatus(ts, "completed") <= |ts|
  {
    if ts != [] {
      PendingCompletedDisjoint(ts[1..]);
    }
  }

  /** A ticket added to the store raises the admin's pending card by one exactly when
      it is pending. */
  lemma AdminPendingAfterAdd(ts: seq<Ticket>, t: Ticket, inv: seq<InventoryItem>, inc: seq<IncidentReport>)
    ensures AdminStats(ts + [t], inv, inc)[1].value ==
      AdminStats(ts, inv, inc)[1].value + (if t.status == Pending then 1 else 0)
  {
    ViewRequests.CountsAfterAdd(ts, t, "pending");
    StatusNameIs(t.status);
  }

  /** A ticket added to the store raises the user's pending and completed cards by one
      exactly when it is the user's own and pending or completed. */
  lemma UserCardsAfterAdd(ts: seq<Ticket>, t: Ticket, ms: seq<Message>, user: Option<User>)
    ensures var own := user.Some? && t.userId == user.value.id;
      UserStats(ts + [t], ms, user)[1].value ==
        UserStats(ts, ms, user)[1].value + (if own && t.status == Pending then 1 else 0) &&
      UserStats(ts + [t], ms, user)[2].value ==
        UserStats(ts, ms, user)[2].value + (if own && t.status == Completed then 1 else 0)
  {
    var mine := ViewRequests.UserRequests(ts, user);
    ViewRequests.UserRequestsAfterAdd(ts, t, user);
    ViewRequests.CountsAfterAdd(mine, t, "pending");
    ViewRequests.CountsAfterAdd(mine, t, "completed");
    StatusNameIs(t.status);
    assert mine + [] == mine;
  }

  /** A user's pending card never shows more than the admin's, which counts the
      pending tickets of everybody. */
  lemma UserPendingWithinAdminPending(ts: seq<Ticket>, ms: seq<Message>, inv: seq<InventoryItem>,
                                      inc: seq<IncidentReport>, user: Option<User>)
    ensures UserStats(ts, ms, user)[1].value <= AdminStats(ts, inv, inc)[1].value
  {
    Seqs.FilterCommute(ts, ViewRequests.OwnedBy(user), ViewRequests.StatusIs("pending"));
  }

  /** `stats`: the admin cards for an admin, the user cards for everybody else,
      including nobody signed in. */
  function Stats(user: Option<User>, ts: seq<Ticket>, inv: seq<InventoryItem>,
                 inc: seq<IncidentReport>, ms: seq<Message>): (r: seq<StatCard>)
    ensures |r| == 4
    ensures r[0].title == "Total Tickets" <==> IsAdmin(user)
    ensures r[0].title == "My Tickets" <==> !IsAdmin(user)
    ensures IsAdmin(user) ==> r == AdminStats(ts, inv, inc)
    ensures !IsAdmin(user) ==> r == UserStats(ts, ms, user)
  {
    if IsAdmin(user) then AdminStats(ts, inv, inc) else UserStats(ts, ms, user)
  }

  /** With nobody signed in the user cards show zero tickets and zero unread
      messages. */
  lemma SignedOutStats(ts: seq<Ticket>, inv: seq<InventoryItem>, inc: seq<IncidentReport>, ms: seq<Message>)
    ensures Stats(None, ts, inv, inc, ms)[0] == StatCard("My Tickets", 0)
    ensures Stats(None, ts, inv, inc, ms)[3] == StatCard("Unread Messages", 0)
  {
    Seqs.FilterKeepsNone(ms, UnreadTo(None));
  }

  // ---------------------------------------------------------------- recent tickets

  /** `(admin ? tickets : userTickets).slice(0, 5)`: the first five tickets of the list
      in collection order, or all of them when there are fewer. */
  function RecentTickets(ts: seq<Ticket>, user: Option<User>): (r: seq<Ticket>)
    ensures var list := if IsAdmin(user) then ts else ViewRequests.UserRequests(ts, user);
      |r| == (if |list| < 5 then |list| else 5) && r == list[..|r|]
  {
    var list := if IsAdmin(user) then ts else ViewRequests.UserRequests(ts, user);
    if |list| < 5 then list else list[..5]
  }

  /** The list shows the oldest tickets: once an admin's collection holds five tickets,
      a newly added ticket never appears in it. */
  lemma RecentIgnoresNewTickets(ts: seq<Ticket>, t: Ticket, user: Option<User>)
    requires IsAdmin(user) && |ts| >= 5
    ensures RecentTickets(ts + [t], user) == RecentTickets(ts, user)
  {
    assert (ts + [t])[..5] == ts[..5];
  }

  /** The same holds for a user's own list once it holds five tickets. */
  lemma RecentIgnoresNewOwnTickets(ts: seq<Ticket>, t: Ticket, user: Option<User>)
    requires !IsAdmin(user) && |ViewRequests.UserRequests(ts, user)| >= 5
    ensures RecentTickets(ts + [t], user) == RecentTickets(ts, user)
  {
    ViewRequests.UserRequestsAfterAdd(ts, t, user);
    var mine := ViewRequests.UserRequests(ts, user);
    assert (mine + [t])[..5] == mine[..5];
  }

  /** "No tickets found" is shown exactly when the recent list is empty. */
  lemma NoTicketsFound(ts: seq<Ticket>, user: Option<User>)
    ensures RecentTickets(ts, user) == [] <==>
      (if IsAdmin(user) then ts else ViewRequests.UserRequests(ts, user)) == []
  {
  }

  /** The badge of a recent ticket: yellow for `'pending'`, green for `'approved'`,
      blue for `'completed'` and red for anything else. */
  function TicketBadge(status: string): (c: ViewRequests.Colour)
    ensures c != ViewRequests.Gray
    ensures c == ViewRequests.Yellow <==> status == "pending"
    ensures c == ViewRequests.Green <==> status == "approved"
    ensures c == ViewRequests.Blue <==> status == "completed"
    ensures c == ViewRequests.Red <==> status !in ["pending", "approved", "completed"]
  {
    if status == "pending" then ViewRequests.Yellow
    else if status == "approved" then ViewRequests.Green
    else if status == "completed" then ViewRequests.Blue
    else ViewRequests.Red
  }

  /** A stored ticket's badge is red exactly when it was disapproved or is in progress. */
  lemma RedBadges(s: TicketStatus)
    ensures TicketBadge(StatusName(s)) == ViewRequests.Red <==> s == Disapproved || s == InProgress
    ensures TicketBadge(StatusName(s)) == ViewRequests.Blue <==> s == Completed
  {
  }
}
