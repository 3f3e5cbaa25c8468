/** The "view requests" page: a user's own tickets, the status filter, the stats cards,
    the status and priority colours, and the ticket and status labels. The page reads
    the store's tickets under their alias `requests`. */
module ViewRequests {
  import opened Types
  import opened Text
  import Seqs
  import opened Store

  // ---------------------------------------------------------------- the user's tickets

  /** `request.userId === user?.id`: with nobody signed in the id is `undefined`, which
      equals no ticket's user id. */
  function OwnedBy(user: Option<User>): Ticket -> bool {
    (t: Ticket) => user.Some? && t.userId == user.value.id
  }

  /** `userRequests`: the tickets of the signed-in user, in store order. */
  function UserRequests(ts: seq<Ticket>, user: Option<User>): (r: seq<Ticket>)
    ensures forall t :: t in r <==> t in ts && user.Some? && t.userId == user.value.id
    ensures user.None? ==> r == []
  {
    var r := Seqs.Filter(ts, OwnedBy(user));
    assert user.None? ==> r == [] by {
      if user.None? {
        Seqs.FilterKeepsNone(ts, OwnedBy(user));
      }
    }
    r
  }

  /** A ticket added for the user is listed last; one added for somebody else is not
      listed. */
  lemma UserRequestsAfterAdd(ts: seq<Ticket>, t: Ticket, user: Option<User>)
    ensures UserRequests(ts + [t], user) ==
      UserRequests(ts, user) + (if user.Some? && t.userId == user.value.id then [t] else [])
  {
    Seqs.FilterAppend(ts, [t], OwnedBy(user));
  }

  // ---------------------------------------------------------------- the status filter

  function PassesFilter(filter: string): Ticket -> bool {
    (t: Ticket) => filter == "all" || StatusName(t.status) == filter
  }

  /** `filteredRequests`: everything for `'all'`, otherwise the tickets whose status is
      the selected literal, in the order of the list. */
  function FilteredRequests(ur: seq<Ticket>, filter: string): (r: seq<Ticket>)
    ensures filter == "all" ==> r == ur
    ensures filter != "all" ==> forall t :: t in r <==> t in ur && StatusName(t.status) == filter
    ensures |r| <= |ur|
  {
    var r := Seqs.Filter(ur, PassesFilter(filter));
    assert filter == "all" ==> r == ur by {
      if filter == "all" {
        Seqs.FilterKeepsAll(ur, PassesFilter(filter));
      }
    }
    r
  }

  /** The `'rejected'` option of the filter never lists a ticket: no stored status is
      written `'rejected'`. */
  lemma RejectedFilterIsEmpty(ur: seq<Ticket>)
    ensures FilteredRequests(ur, "rejected") == []
  {
    Seqs.FilterKeepsNone(ur, PassesFilter("rejected"));
  }

  /** A literal that names no status lists nothing; one that does lists exactly the
      tickets with that status. */
  lemma FilterByParsedStatus(ur: seq<Ticket>, filter: string)
    requires filter != "all"
    ensures ParseStatus(filter).None? ==> FilteredRequests(ur, filter) == []
    ensures ParseStatus(filter).Some? ==>
      forall t :: t in FilteredRequests(ur, filter) <==> t in ur && t.status == ParseStatus(filter).value
  {
    if ParseStatus(filter).None? {
      forall i | 0 <= i < |ur| ensures !PassesFilter(filter)(ur[i]) {
        StatusNameRoundTrip(ur[i].status, filter);
      }
      Seqs.FilterKeepsNone(ur, PassesFilter(filter));
    } else {
      forall t: Ticket ensures StatusName(t.status) == filter <==> t.status == ParseStatus(filter).value {
        StatusNameRoundTrip(t.status, filter);
      }
    }
  }

  // ---------------------------------------------------------------- stats

  function StatusIs(name: string): Ticket -> bool {
    (t: Ticket) => StatusName(t.status) == name
  }

  function IsHighPriority(t: Ticket): bool {
    PriorityName(t.priority) == "high"
  }

  /** `.filter(r => r.status === name).length`: how many tickets carry the status
      literal `name`; zero exactly when none does. */
  function CountStatus(ts: seq<Ticket>, name: string): (n: nat)
    ensures n <= |ts|
    ensures n == 0 <==> forall t :: t in ts ==> StatusName(t.status) != name
  {
    var kept := Seqs.Filter(ts, StatusIs(name));
    assert kept != [] ==> kept[0] in kept;
    |kept|
  }

  /** `.filter(r => r.priority === 'high').length`: zero exactly when no ticket is of
      high priority. */
  function CountHighPriority(ts: seq<Ticket>): (n: nat)
    ensures n <= |ts|
    ensures n == 0 <==> forall t :: t in ts ==> !IsHighPriority(t)
  {
    var kept := Seqs.Filter(ts, IsHighPriority);
    assert kept != [] ==> kept[0] in kept;
    |kept|
  }

  /** The counts of an empty list are zero, and appending a ticket raises exactly the
      counts it matches, by one. Together these fix each count as the number of
      matching tickets. */
  lemma CountsAfterAdd(ts: seq<Ticket>, t: Ticket, name: string)
    ensures CountStatus([], name) == 0 && CountHighPriority([]) == 0
    ensures CountStatus(ts + [t], name) == CountStatus(ts, name) + (if StatusName(t.status) == name then 1 else 0)
    ensures CountHighPriority(ts + [t]) == CountHighPriority(ts) + (if IsHighPriority(t) then 1 else 0)
  {
    Seqs.FilterAppend(ts, [t], StatusIs(name));
    Seqs.FilterAppend(ts, [t], IsHighPriority);
  }

  datatype Stats = Stats(total: nat, pending: nat, approved: nat, rejected: nat, priority: nat)

  /** `requestStats` as written: the list length, exact status-literal counts for
      `'pending'`, `'approved'` and `'rejected'`, and the number of high-priority
      tickets. The rejected count is always zero. */
  function RequestStats(ur: seq<Ticket>): (s: Stats)
    ensures s.total == |ur|
    ensures s.pending == CountStatus(ur, "pending") && s.approved == CountStatus(ur, "approved")
    ensures s.rejected == CountStatus(ur, "rejected") && s.priority == CountHighPriority(ur)
    ensures s.pending + s.approved <= s.total
    ensures s.rejected == 0
  {
    forall t | t in ur ensures StatusName(t.status) != "rejected" {
      RejectedIsNoStatus(t.status);
    }
    PendingApprovedDisjoint(ur);
    Stats(|ur|, CountStatus(ur, "pending"), CountStatus(ur, "approved"),
      CountStatus(ur, "rejected"), CountHighPriority(ur))
  }

  /** A ticket added to the user's list raises the total by one, the pending, approved
      and high-priority cards by one exactly when it is pending, approved or of high
      priority, and leaves the rejected card at zero. */
  lemma RequestStatsAfterAdd(ur: seq<Ticket>, t: Ticket)
    ensures var before, after := RequestStats(ur), RequestStats(ur + [t]);
      after.total == before.total + 1 &&
      after.pending == before.pending + (if t.status == Pending then 1 else 0) &&
      after.approved == before.approved + (if t.status == Approved then 1 else 0) &&
      after.rejected == 0 &&
      after.priority == before.priority + (if t.priority == High then 1 else 0)
  {
    CountsAfterAdd(ur, t, "pending");
    CountsAfterAdd(ur, t, "approved");
    StatusNameIs(t.status);
    PriorityNameIs(t.priority);
  }

  /** No ticket is both pending and approved, so the two cards never count one ticket
      twice. */
  lemma {:induction false} PendingApprovedDisjoint(ur: seq<Ticket>)
    ensures CountStatus(ur, "pending") + CountStatus(ur, "approved") <= |ur|
  {
    if ur != [] {
      PendingApprovedDisjoint(ur[1..]);
    }
  }

  /** Rejecting one of the user's tickets through the store moves it out of the pending
      count but never into the rejected count: the store writes `'disapproved'`. */
  lemma RejectionNotCounted(ts: seq<Ticket>, id: string, now: int, user: Option<User>)
    ensures RequestStats(UserRequests(ReviewTickets(ts, id, Reject, now), user)).rejected == 0
    ensures FilteredRequests(UserRequests(ReviewTickets(ts, id, Reject, now), user), "rejected") == []
  {
    RejectedFilterIsEmpty(UserRequests(ReviewTickets(ts, id, Reject, now), user));
  }

  /** The stats as the page evidently means them: the rejected card counts the tickets
      the store marks `'disapproved'`. */
  function CorrectedStats(ur: seq<Ticket>): (s: Stats)
    ensures s.total == |ur|
    ensures s.pending == CountStatus(ur, "pending") && s.approved == CountStatus(ur, "approved")
    ensures s.rejected == CountStatus(ur, "disapproved") && s.priority == CountHighPriority(ur)
    ensures s.rejected == 0 <==> forall t :: t in ur ==> t.status != Disapproved
  {
    DisapprovedCounted(ur);
    Stats(|ur|, CountStatus(ur, "pending"), CountStatus(ur, "approved"),
      CountStatus(ur, "disapproved"), CountHighPriority(ur))
  }

  /** The `'disapproved'` count is zero exactly when no ticket is disapproved. */
  lemma DisapprovedCounted(ur: seq<Ticket>)
    ensures CountStatus(ur, "disapproved") == 0 <==> forall t :: t in ur ==> t.status != Disapproved
  {
    forall t | t in ur ensures StatusName(t.status) == "disapproved" <==> t.status == Disapproved {
      StatusNameRoundTrip(t.status, "disapproved");
    }
  }

  /** With the correction, rejecting one of the user's tickets through the store makes
      the rejected card non-zero. */
  lemma RejectionCountedWhenCorrected(ts: seq<Ticket>, i: int, now: int, user: User)
    requires 0 <= i < |ts| && ts[i].userId == user.id
    ensures CorrectedStats(UserRequests(ReviewTickets(ts, ts[i].id, Reject, now), Some(user))).rejected > 0
  {
    var after := ReviewTickets(ts, ts[i].id, Reject, now);
    assert after[i] in UserRequests(after, Some(user));
  }

  // ---------------------------------------------------------------- colours and labels

  datatype Colour = Yellow | Green | Red | Blue | Gray

  /** `getStatusColor` as written: yellow, green and red for `'pending'`, `'approved'`
      and `'rejected'`, gray for any other literal. */
  function StatusColour(status: string): (c: Colour)
    ensures c != Blue
    ensures c == Yellow <==> status == "pending"
    ensures c == Green <==> status == "approved"
    ensures c == Red <==> status == "rejected"
    ensures c == Gray <==> status !in ["pending", "approved", "rejected"]
  {
    if status == "pending" then Yellow
    else if status == "approved" then Green
    else if status == "rejected" then Red
    else Gray
  }

  /** The three named statuses get three different colours, but a stored ticket is never
      red: a disapproved ticket is gray, like an in-progress or a completed one. */
  lemma StoredStatusNeverRed(s: TicketStatus)
    ensures StatusColour("pending") != StatusColour("approved")
    ensures StatusColour("approved") != StatusColour("rejected")
    ensures StatusColour("pending") != StatusColour("rejected")
    ensures StatusColour(StatusName(s)) != Red
    ensures StatusColour(StatusName(s)) == Gray <==> s !in {Pending, Approved}
  {
  }

  /** The colour evidently intended: the store's `'disapproved'` is shown red. */
  function CorrectedStatusColour(status: string): (c: Colour)
    ensures c != Blue
    ensures c == Gray <==> status !in ["pending", "approved", "disapproved"]
  {
    if status == "pending" then Yellow
    else if status == "approved" then Green
    else if status == "disapproved" then Red
    else Gray
  }

  /** With the correction a stored ticket is red exactly when it was disapproved. */
  lemma CorrectedColourShowsRejection(s: TicketStatus)
    ensures CorrectedStatusColour(StatusName(s)) == Red <==> s == Disapproved
    ensures CorrectedStatusColour(StatusName(s)) == Yellow <==> s == Pending
    ensures CorrectedStatusColour(StatusName(s)) == Green <==> s == Approved
  {
  }

  /** `getPriorityColor`: red for `'high'`, blue for anything else. The page defines it
      but never calls it; the rows are highlighted by the inline comparison with
      `'high'` instead. */
  function PriorityColour(priority: string): (c: Colour)
    ensures c == Red || c == Blue
    ensures c == Red <==> priority == "high"
  {
    if priority == "high" then Red else Blue
  }

  /** A row gets the red highlight (the inline `request.priority === 'high'`, which is
      `IsHighPriority`) exactly when its ticket is counted in the priority card, and
      exactly when the unused `getPriorityColor` would have given red. */
  lemma PriorityColourMatchesCount(t: Ticket)
    ensures PriorityColour(PriorityName(t.priority)) == Red <==> IsHighPriority(t)
    ensures PriorityColour(PriorityName(t.priority)) == Red <==> t.priority == High
  {
  }

  /** `id.slice(-6)`: the last six characters, or the whole id when it is shorter. */
  function LastSix(id: string): (r: string)
    ensures |r| == if |id| < 6 then |id| else 6
    ensures r == id[|id| - |r|..]
  {
    if |id| < 6 then id else id[|id| - 6..]
  }

  /** `id.slice(-6).toUpperCase()`: the label after "Ticket #". */
  function TicketLabel(id: string): (r: string)
    ensures |r| == if |id| < 6 then |id| else 6
    ensures forall k :: 0 <= k < |r| ==> r[k] == UpperChar(id[|id| - |r| + k])
  {
    var six := LastSix(id);
    var r := ToUpper(six);
    assert |r| == |six|;
    assert forall k :: 0 <= k < |six| ==> six[k] == id[|id| - |six| + k];
    r
  }

  /** Labelling a label changes nothing. */
  lemma TicketLabelIdempotent(id: string)
    ensures TicketLabel(TicketLabel(id)) == TicketLabel(id)
  {
    var r := TicketLabel(id);
    assert LastSix(r) == r;
  }

  /** The ids the store generates are decimal digits: their label is their last six
      digits unchanged. */
  lemma DigitIdLabel(id: string)
    requires forall k :: 0 <= k < |id| ==> IsDigit(id[k])
    ensures TicketLabel(id) == LastSix(id)
  {
  }

  /** `status.charAt(0).toUpperCase() + status.slice(1)`: the status with its first
      letter upper-cased; the empty string stays empty. */
  function StatusLabel(status: string): (r: string)
    ensures |r| == |status|
    ensures status != [] ==> r[0] == UpperChar(status[0]) && r[1..] == status[1..]
  {
    if status == [] then [] else [UpperChar(status[0])] + status[1..]
  }

  /** The label of a stored `pending` status. */
  lemma PendingLabel()
    ensures StatusLabel(StatusName(Pending)) == "Pending"
  {
    assert StatusName(Pending) == "pending";
  }

  /** The label of a stored `in-progress` status. */
  lemma InProgressLabel()
    ensures StatusLabel(StatusName(InProgress)) == "In-progress"
  {
    assert StatusName(InProgress) == "in-progress";
  }

  /** The label of a stored `disapproved` status. */
  lemma DisapprovedLabel()
    ensures StatusLabel(StatusName(Disapproved)) == "Disapproved"
  {
    assert StatusName(Disapproved) == "disapproved";
  }

  /** No two stored statuses share a label. */
  lemma StatusLabelsDistinct(a: TicketStatus, b: TicketStatus)
    ensures StatusLabel(StatusName(a)) == StatusLabel(StatusName(b)) ==> a == b
  {
    if a != b {
      var x, y := StatusName(a), StatusName(b);
      if |x| == |y| {
        assert {a, b} == {Disapproved, InProgress};
        assert x[1] != y[1];
        assert StatusLabel(x)[1] != StatusLabel(y)[1];
      }
    }
  }
}
