/** The in-memory record store (`DataProvider`): four collections that every operation
    replaces by a new list built by appending, merging by id, or filtering by id.
    The clock and the id generator are parameters: `now` is the timestamp that
    `new Date()` would give and `newId` the string `Date.now().toString()` would give. */
module Store {
  import opened Types
  import opened Text

  // ---------------------------------------------------------------- inputs of the operations

  /** What a caller of `addTicket` supplies: a ticket without id, number and timestamps. */
  datatype TicketDraft = TicketDraft(
    userId: string,
    userName: string,
    office: string,
    category: string,
    description: string,
    priority: Priority,
    status: TicketStatus,
    adminNotes: Option<string>)

  /** `Partial<Ticket>`: every field may be present or absent. */
  datatype TicketUpdate = TicketUpdate(
    id: Option<string>,
    ticketNumber: Option<string>,
    userId: Option<string>,
    userName: Option<string>,
    office: Option<string>,
    category: Option<string>,
    description: Option<string>,
    priority: Option<Priority>,
    status: Option<TicketStatus>,
    createdAt: Option<int>,
    updatedAt: Option<int>,
    adminNotes: Option<string>)

  /** The two verdicts `updateRequestStatus` accepts: `'approved' | 'rejected'`. */
  datatype Decision = Approve | Reject

  /** `Omit<InventoryItem, 'id'>` */
  datatype InventoryDraft = InventoryDraft(
    name: string,
    category: string,
    model: string,
    serialNumber: string,
    quantity: int,
    status: InventoryStatus,
    location: string,
    purchaseDate: int,
    notes: Option<string>)

  /** `Partial<InventoryItem>` */
  datatype InventoryUpdate = InventoryUpdate(
    id: Option<string>,
    name: Option<string>,
    category: Option<string>,
    model: Option<string>,
    serialNumber: Option<string>,
    quantity: Option<int>,
    status: Option<InventoryStatus>,
    location: Option<string>,
    purchaseDate: Option<int>,
    notes: Option<string>)

  /** `Omit<IncidentReport, 'id' | 'reportDate'>` */
  datatype IncidentDraft = IncidentDraft(
    ticketId: string,
    technicianName: string,
    office: string,
    issueDescription: string,
    itemsNeedReplacement: seq<string>,
    replacementItems: seq<InventoryItem>,
    actionTaken: string,
    status: ReportStatus)

  /** `Omit<Message, 'id' | 'timestamp'>`. The type makes `read` required, but the
      message view's send handler leaves it out; `addMessage` overwrites it anyway. */
  datatype MessageDraft = MessageDraft(
    senderId: string,
    senderName: string,
    receiverId: string,
    content: string,
    read: Option<bool>)

  // ---------------------------------------------------------------- ticket numbers

  /** `` `TK${String(count + 1).padStart(4, '0')}` ``: the number given to the ticket
      appended to a collection of `count` tickets. It is "TK" followed by digits that
      read back as `count + 1`, at least four of them and never truncated. */
  function TicketNumber(count: nat): (r: string)
    ensures |r| >= 6 && r[..2] == "TK"
    ensures forall k :: 2 <= k < |r| ==> IsDigit(r[k])
    ensures DecimalValue(r[2..]) == count + 1
  {
    var padded := PadStart(NatToDecimal(count + 1), 4, '0');
    PaddedDecimal(count + 1);
    assert ("TK" + padded)[2..] == padded;
    "TK" + padded
  }

  /** `String(n).padStart(4, '0')` is at least four digits and reads back as `n`. */
  lemma PaddedDecimal(n: nat)
    ensures var padded := PadStart(NatToDecimal(n), 4, '0');
      |padded| >= 4 && (forall k :: 0 <= k < |padded| ==> IsDigit(padded[k])) &&
      DecimalValue(padded) == n
  {
    var digits := NatToDecimal(n);
    var padded := PadStart(digits, 4, '0');
    DecimalRoundTrip(n);
    assert padded == Repeat('0', |padded| - |digits|) + digits;
    LeadingZeros(|padded| - |digits|, digits);
  }

  /** The number field is exactly as wide as `count + 1` needs, and at least four wide. */
  lemma TicketNumberWidth(count: nat)
    ensures |TicketNumber(count)| == 2 + (if |NatToDecimal(count + 1)| >= 4 then |NatToDecimal(count + 1)| else 4)
  {
  }

  /** On an empty collection the first ticket is TK0001. */
  lemma FirstTicketNumber()
    ensures TicketNumber(0) == "TK0001"
  {
    TicketNumberOf(0, "1");
  }

  /** After the two seed tickets the next one is TK0003. */
  lemma TicketNumberAfterSeed()
    ensures TicketNumber(|SampleTickets()|) == "TK0003"
  {
    assert |SampleTickets()| == 2;
    TicketNumberOf(2, "3");
  }

  /** Past 9999 tickets the number grows a digit instead of being cut to four. */
  lemma TicketNumberNotTruncated()
    ensures TicketNumber(9999) == "TK10000"
  {
    assert NatToDecimal(1) == "1";
    assert NatToDecimal(10) == "10";
    assert NatToDecimal(100) == "100";
    assert NatToDecimal(1000) == "1000";
    assert NatToDecimal(10000) == "10000";
    assert PadStart("10000", 4, '0') == "10000";
  }

  lemma TicketNumberOf(count: nat, digits: string)
    requires NatToDecimal(count + 1) == digits && |digits| == 1
    ensures TicketNumber(count) == "TK000" + digits
  {
    assert Repeat('0', 3) == "000";
  }

  // ---------------------------------------------------------------- merging updates

  /** One field of an object spread `{...old, ...updates}`: a field present in
      `updates` wins. */
  function Pick<T>(u: Option<T>, v: T): T {
    if u.Some? then u.value else v
  }

  /** `{ ...ticket, ...updates, updatedAt: new Date() }`: every field present in the
      update replaces the ticket's, and `updatedAt` is `now` even when the update
      carries an `updatedAt` of its own. */
  function MergeTicket(t: Ticket, u: TicketUpdate, now: int): (r: Ticket)
    ensures r.updatedAt == now
  {
    Ticket(
      Pick(u.id, t.id), Pick(u.ticketNumber, t.ticketNumber), Pick(u.userId, t.userId),
      Pick(u.userName, t.userName), Pick(u.office, t.office), Pick(u.category, t.category),
      Pick(u.description, t.description), Pick(u.priority, t.priority), Pick(u.status, t.status),
      Pick(u.createdAt, t.createdAt), now,
      if u.adminNotes.Some? then u.adminNotes else t.adminNotes)
  }

  /** The update with no field present. */
  function NoTicketChanges(): TicketUpdate {
    TicketUpdate(None, None, None, None, None, None, None, None, None, None, None, None)
  }

  /** The update `{ status }`. */
  function StatusChange(s: TicketStatus): TicketUpdate {
    NoTicketChanges().(status := Some(s))
  }

  /** An empty update only refreshes the timestamp; a status update changes exactly the
      status and the timestamp. */
  lemma MergeTicketNarrow(t: Ticket, s: TicketStatus, now: int)
    ensures MergeTicket(t, NoTicketChanges(), now) == t.(updatedAt := now)
    ensures MergeTicket(t, StatusChange(s), now) == t.(status := s, updatedAt := now)
  {
  }

  /** `tickets.map(t => t.id === id ? merge : t)`: the same tickets in the same order,
      the ones with that id merged with the update, every other one untouched. */
  function UpdateTickets(ts: seq<Ticket>, id: string, u: TicketUpdate, now: int): (r: seq<Ticket>)
    ensures |r| == |ts|
    ensures forall i :: 0 <= i < |ts| ==>
      r[i] == if ts[i].id == id then MergeTicket(ts[i], u, now) else ts[i]
  {
    if ts == [] then []
    else [if ts[0].id == id then MergeTicket(ts[0], u, now) else ts[0]] + UpdateTickets(ts[1..], id, u, now)
  }

  /** An unknown id is a silent no-op. */
  lemma UpdateTicketsUnknownId(ts: seq<Ticket>, id: string, u: TicketUpdate, now: int)
    requires forall i :: 0 <= i < |ts| ==> ts[i].id != id
    ensures UpdateTickets(ts, id, u, now) == ts
  {
  }

  /** Applying the same update twice at the same instant is applying it once, even when
      the update renames the ticket's id. */
  lemma UpdateTicketsIdempotent(ts: seq<Ticket>, id: string, u: TicketUpdate, now: int)
    ensures UpdateTickets(UpdateTickets(ts, id, u, now), id, u, now) == UpdateTickets(ts, id, u, now)
  {
  }

  /** The stored status for a verdict: `'approved'` stays `approved`, `'rejected'` is
      stored as `disapproved`. */
  function DecisionStatus(d: Decision): (s: TicketStatus)
    ensures s == Approved || s == Disapproved
    ensures s == Approved <==> d == Approve
  {
    if d == Approve then Approved else Disapproved
  }

  /** The `prev.map(...)` of `updateRequestStatus`: matching tickets get the mapped
      status and `updatedAt = now`; nothing else changes. */
  function ReviewTickets(ts: seq<Ticket>, id: string, d: Decision, now: int): (r: seq<Ticket>)
    ensures |r| == |ts|
    ensures forall i :: 0 <= i < |ts| ==>
      r[i] == if ts[i].id == id then ts[i].(status := DecisionStatus(d), updatedAt := now) else ts[i]
  {
    if ts == [] then []
    else
      [if ts[0].id == id then ts[0].(status := DecisionStatus(d), updatedAt := now) else ts[0]]
      + ReviewTickets(ts[1..], id, d, now)
  }

  /** `updateRequestStatus` is `updateTicket` restricted to a status update. */
  lemma {:induction false} ReviewIsStatusUpdate(ts: seq<Ticket>, id: string, d: Decision, now: int)
    ensures ReviewTickets(ts, id, d, now) == UpdateTickets(ts, id, StatusChange(DecisionStatus(d)), now)
  {
    if ts != [] {
      ReviewIsStatusUpdate(ts[1..], id, d, now);
      MergeTicketNarrow(ts[0], DecisionStatus(d), now);
    }
  }

  /** Rejecting stores the literal `disapproved`, never `rejected`. */
  lemma RejectStoresDisapproved(ts: seq<Ticket>, id: string, now: int, i: nat)
    requires i < |ts| && ts[i].id == id
    ensures StatusName(ReviewTickets(ts, id, Reject, now)[i].status) == "disapproved"
  {
  }

  // ---------------------------------------------------------------- inventory

  /** `{ ...item, ...updates }`: no timestamp is touched. */
  function MergeItem(x: InventoryItem, u: InventoryUpdate): InventoryItem {
    InventoryItem(
      Pick(u.id, x.id), Pick(u.name, x.name), Pick(u.category, x.category), Pick(u.model, x.model),
      Pick(u.serialNumber, x.serialNumber), Pick(u.quantity, x.quantity), Pick(u.status, x.status),
      Pick(u.location, x.location), Pick(u.purchaseDate, x.purchaseDate),
      if u.notes.Some? then u.notes else x.notes)
  }

  /** `inventory.map(i => i.id === id ? { ...i, ...updates } : i)` */
  function UpdateItems(xs: seq<InventoryItem>, id: string, u: InventoryUpdate): (r: seq<InventoryItem>)
    ensures |r| == |xs|
    ensures forall i :: 0 <= i < |xs| ==> r[i] == if xs[i].id == id then MergeItem(xs[i], u) else xs[i]
  {
    if xs == [] then []
    else [if xs[0].id == id then MergeItem(xs[0], u) else xs[0]] + UpdateItems(xs[1..], id, u)
  }

  /** Merging is idempotent, so updating twice is updating once; an unknown id is a
      silent no-op. */
  lemma UpdateItemsProperties(xs: seq<InventoryItem>, id: string, u: InventoryUpdate)
    ensures UpdateItems(UpdateItems(xs, id, u), id, u) == UpdateItems(xs, id, u)
    ensures (forall i :: 0 <= i < |xs| ==> xs[i].id != id) ==> UpdateItems(xs, id, u) == xs
  {
  }

  /** Number of items carrying the id. */
  function CountId(xs: seq<InventoryItem>, id: string): (n: nat)
    ensures n <= |xs|
  {
    if xs == [] then 0 else (if xs[0].id == id then 1 else 0) + CountId(xs[1..], id)
  }

  /** `inventory.filter(i => i.id !== id)`: every item with that id is gone, every other
      item stays, and exactly the matches are removed. */
  function WithoutId(xs: seq<InventoryItem>, id: string): (r: seq<InventoryItem>)
    ensures |r| == |xs| - CountId(xs, id)
    ensures forall x :: x in r <==> x in xs && x.id != id
  {
    if xs == [] then [] else (if xs[0].id != id then [xs[0]] else []) + WithoutId(xs[1..], id)
  }

  /** Deletion keeps the survivors in their order: deleting from a concatenation deletes
      from each part. */
  lemma {:induction false} WithoutIdAppend(a: seq<InventoryItem>, b: seq<InventoryItem>, id: string)
    ensures WithoutId(a + b, id) == WithoutId(a, id) + WithoutId(b, id)
  {
    if a != [] {
      assert (a + b)[1..] == a[1..] + b;
      WithoutIdAppend(a[1..], b, id);
    } else {
      assert a + b == b;
    }
  }

  /** An unknown id is a silent no-op, and deleting twice is deleting once. */
  lemma {:induction false} WithoutIdProperties(xs: seq<InventoryItem>, id: string)
    ensures CountId(xs, id) == 0 ==> WithoutId(xs, id) == xs
    ensures WithoutId(WithoutId(xs, id), id) == WithoutId(xs, id)
  {
    if xs != [] {
      WithoutIdProperties(xs[1..], id);
      var head := if xs[0].id != id then [xs[0]] else [];
      WithoutIdAppend(head, WithoutId(xs[1..], id), id);
      assert WithoutId(head, id) == head;
    }
  }

  // ---------------------------------------------------------------- messages

  /** `messages.map(m => m.id === id ? { ...m, read: true } : m)` */
  function MarkRead(ms: seq<Message>, id: string): (r: seq<Message>)
    ensures |r| == |ms|
    ensures forall i :: 0 <= i < |ms| ==> r[i] == if ms[i].id == id then ms[i].(read := true) else ms[i]
  {
    if ms == [] then []
    else [if ms[0].id == id then ms[0].(read := true) else ms[0]] + MarkRead(ms[1..], id)
  }

  /** Marking is idempotent, never clears a read flag, and only ever changes the flag. */
  lemma MarkReadProperties(ms: seq<Message>, id: string)
    ensures MarkRead(MarkRead(ms, id), id) == MarkRead(ms, id)
    ensures forall i :: 0 <= i < |ms| ==> (ms[i].read ==> MarkRead(ms, id)[i].read)
    ensures forall i :: 0 <= i < |ms| ==> MarkRead(ms, id)[i] == ms[i].(read := MarkRead(ms, id)[i].read)
  {
  }

  // ---------------------------------------------------------------- seed data

  /** The two tickets the mount effect loads. Their timestamps are the UTC readings of
      the literal dates. */
  function SampleTickets(): seq<Ticket> {
    [ Ticket("1", "TK0001", "2", "John Teacher", "Mathematics Department", "Hardware Issue",
             "Classroom computer won't boot up. Shows black screen when powered on.",
             High, Pending, 1704879000000, 1704879000000, None),
      Ticket("2", "TK0002", "2", "John Teacher", "Mathematics Department", "Software Issue",
             "Unable to access email. Getting authentication error when trying to log in.",
             Medium, Approved, 1704809700000, 1704817200000,
             Some("Approved. Will reset email password and provide new credentials.")) ]
  }

  /** The five inventory items the mount effect loads. */
  function SampleInventory(): seq<InventoryItem> {
    [ InventoryItem("1", "Dell Desktop Computer", "Computer", "OptiPlex 7090", "DL001234", 15, Active,
                    "IT Storage Room A", 1673740800000, Some("Standard desktop computers for classrooms")),
      InventoryItem("2", "HP Laptop", "Computer", "EliteBook 840", "HP005678", 8, Active,
                    "IT Storage Room B", 1678406400000, Some("Portable laptops for mobile teaching")),
      InventoryItem("3", "Canon Printer", "Printer", "PIXMA TR8620", "CN789012", 3, Active,
                    "Faculty Office", 1684540800000, Some("Color printers for administrative use")),
      InventoryItem("4", "Samsung Monitor", "Monitor", "24\" LED", "SM345678", 2, Inactive,
                    "IT Storage Room A", 1660521600000, Some("Monitors with minor display issues")),
      InventoryItem("5", "Old Desktop Computer", "Computer", "Compaq 8300", "HP901234", 5, Dispose,
                    "Storage Basement", 1549756800000, Some("End of life computers scheduled for disposal")) ]
  }

  /** The seed tickets carry the numbers TK0001 and TK0002 that `addTicket` would have
      given them, and neither is updated before it is created. */
  lemma SampleTicketsConsistent()
    ensures forall i :: 0 <= i < |SampleTickets()| ==> SampleTickets()[i].ticketNumber == TicketNumber(i)
    ensures forall i :: 0 <= i < |SampleTickets()| ==> SampleTickets()[i].createdAt <= SampleTickets()[i].updatedAt
  {
    assert NatToDecimal(1) == "1";
    assert NatToDecimal(2) == "2";
  }

  // ---------------------------------------------------------------- the store

  /** The provider's state: the four collections. */
  class DataStore {
    var tickets: seq<Ticket>
    var inventory: seq<InventoryItem>
    var incidents: seq<IncidentReport>
    var messages: seq<Message>

    /** All four collections start empty. */
    constructor ()
      ensures tickets == [] && inventory == [] && incidents == [] && messages == []
    {
      tickets, inventory, incidents, messages := [], [], [], [];
    }

    /** The mount effect: the sample inventory and tickets replace those collections. */
    method LoadSampleData()
      modifies this
      ensures inventory == SampleInventory() && tickets == SampleTickets()
      ensures incidents == old(incidents) && messages == old(messages)
    {
      inventory := SampleInventory();
      tickets := SampleTickets();
    }

    /** `addTicket`: appends one ticket built from the draft, numbered after the current
      length, created and updated at `now`; the draft's status is kept as given. */
    method AddTicket(d: TicketDraft, now: int, newId: string)
      modifies this
      ensures tickets == old(tickets) + [Ticket(newId, TicketNumber(|old(tickets)|), d.userId, d.userName,
        d.office, d.category, d.description, d.priority, d.status, now, now, d.adminNotes)]
      ensures inventory == old(inventory) && incidents == old(incidents) && messages == old(messages)
    {
      var t := Ticket(newId, TicketNumber(|tickets|), d.userId, d.userName, d.office, d.category,
                      d.description, d.priority, d.status, now, now, d.adminNotes);
      tickets := tickets + [t];
    }

    /** `updateTicket`: merges the update into every ticket with that id. */
    method UpdateTicket(id: string, u: TicketUpdate, now: int)
      modifies this
      ensures tickets == UpdateTickets(old(tickets), id, u, now)
      ensures inventory == old(inventory) && incidents == old(incidents) && messages == old(messages)
    {
      tickets := UpdateTickets(tickets, id, u, now);
    }

    /** `updateRequestStatus`: approves or disapproves every ticket with that id. */
    method UpdateRequestStatus(id: string, d: Decision, now: int)
      modifies this
      ensures tickets == ReviewTickets(old(tickets), id, d, now)
      ensures inventory == old(inventory) && incidents == old(incidents) && messages == old(messages)
    {
      tickets := ReviewTickets(tickets, id, d, now);
    }

    /** `addInventoryItem`: appends the draft under the new id. */
    method AddInventoryItem(d: InventoryDraft, newId: string)
      modifies this
      ensures inventory == old(inventory) + [InventoryItem(newId, d.name, d.category, d.model,
        d.serialNumber, d.quantity, d.status, d.location, d.purchaseDate, d.notes)]
      ensures tickets == old(tickets) && incidents == old(incidents) && messages == old(messages)
    {
      inventory := inventory + [InventoryItem(newId, d.name, d.category, d.model, d.serialNumber,
                                              d.quantity, d.status, d.location, d.purchaseDate, d.notes)];
    }

    /** `updateInventoryItem`: merges the update into every item with that id. */
    method UpdateInventoryItem(id: string, u: InventoryUpdate)
      modifies this
      ensures inventory == UpdateItems(old(inventory), id, u)
      ensures tickets == old(tickets) && incidents == old(incidents) && messages == old(messages)
    {
      inventory := UpdateItems(inventory, id, u);
    }

    /** `deleteInventoryItem`: removes every item with that id. The interface declares
      a second parameter that the implementation does not take; it has no effect. */
    method DeleteInventoryItem(id: string)
      modifies this
      ensures inventory == WithoutId(old(inventory), id)
      ensures |inventory| == |old(inventory)| - CountId(old(inventory), id)
      ensures tickets == old(tickets) && incidents == old(incidents) && messages == old(messages)
    {
      inventory := WithoutId(inventory, id);
    }

    /** `addIncidentReport`: appends the draft under the new id, reported at `now`. */
    method AddIncidentReport(d: IncidentDraft, now: int, newId: string)
      modifies this
      ensures incidents == old(incidents) + [IncidentReport(newId, d.ticketId, d.technicianName, d.office,
        d.issueDescription, d.itemsNeedReplacement, d.replacementItems, d.actionTaken, now, d.status)]
      ensures tickets == old(tickets) && inventory == old(inventory) && messages == old(messages)
    {
      incidents := incidents + [IncidentReport(newId, d.ticketId, d.technicianName, d.office,
        d.issueDescription, d.itemsNeedReplacement, d.replacementItems, d.actionTaken, now, d.status)];
    }

    /** `addMessage`: appends the draft under the new id, sent at `now` and unread
      whatever `read` the caller passed. */
    method AddMessage(d: MessageDraft, now: int, newId: string)
      modifies this
      ensures messages == old(messages) + [Message(newId, d.senderId, d.senderName, d.receiverId, d.content, now, false)]
      ensures tickets == old(tickets) && inventory == old(inventory) && incidents == old(incidents)
    {
      messages := messages + [Message(newId, d.senderId, d.senderName, d.receiverId, d.content, now, false)];
    }

    /** `markMessageAsRead`: sets the read flag of every message with that id. */
    method MarkMessageAsRead(id: string)
      modifies this
      ensures messages == MarkRead(old(messages), id)
      ensures tickets == old(tickets) && inventory == old(inventory) && incidents == old(incidents)
    {
      messages := MarkRead(messages, id);
    }
  }
}
