/** The records of the IT-support front end and their closed string-literal enums.
    Dates are millisecond timestamps; an optional field (`adminNotes?`, `notes?`) is an
    `Option`. A field typed `number` or `string` without a literal union stays
    unconstrained: an inventory `quantity` may be zero or negative, and an incident's
    `actionTaken` may be any text. */
module Types {

  datatype Option<T> = None | Some(value: T)

  /** `'admin' | 'user'` */
  datatype Role = Admin | RegularUser

  datatype User = User(id: string, name: string, username: string, role: Role, office: string)

  /** `'low' | 'medium' | 'high'` */
  datatype Priority = Low | Medium | High

  /** `'pending' | 'approved' | 'disapproved' | 'in-progress' | 'completed'` */
  datatype TicketStatus = Pending | Approved | Disapproved | InProgress | Completed

  datatype Ticket = Ticket(
    id: string,
    ticketNumber: string,
    userId: string,
    userName: string,
    office: string,
    category: string,
    description: string,
    priority: Priority,
    status: TicketStatus,
    createdAt: int,
    updatedAt: int,
    adminNotes: Option<string>)

  /** `'active' | 'inactive' | 'dispose'` */
  datatype InventoryStatus = Active | Inactive | Dispose

  datatype InventoryItem = InventoryItem(
    id: string,
    name: string,
    category: string,
    model: string,
    serialNumber: string,
    quantity: int,
    status: InventoryStatus,
    location: string,
    purchaseDate: int,
    notes: Option<string>)

  /** `'pending' | 'completed'` for incident reports */
  datatype ReportStatus = ReportPending | ReportCompleted

  datatype IncidentReport = IncidentReport(
    id: string,
    ticketId: string,
    technicianName: string,
    office: string,
    issueDescription: string,
    itemsNeedReplacement: seq<string>,
    replacementItems: seq<InventoryItem>,
    actionTaken: string,
    reportDate: int,
    status: ReportStatus)

  datatype Message = Message(
    id: string,
    senderId: string,
    senderName: string,
    receiverId: string,
    content: string,
    timestamp: int,
    read: bool)

  /** The string literal a ticket priority is stored as. */
  function PriorityName(p: Priority): (r: string)
    ensures r == "low" || r == "medium" || r == "high"
  {
    match p
    case Low => "low"
    case Medium => "medium"
    case High => "high"
  }

  /** The string literal a ticket status is stored as; the views compare these. */
  function StatusName(s: TicketStatus): (r: string)
    ensures r in ["pending", "approved", "disapproved", "in-progress", "completed"]
  {
    match s
    case Pending => "pending"
    case Approved => "approved"
    case Disapproved => "disapproved"
    case InProgress => "in-progress"
    case Completed => "completed"
  }

  /** Which ticket status, if any, a string literal names. */
  function ParseStatus(name: string): (r: Option<TicketStatus>)
  {
    if name == "pending" then Some(Pending)
    else if name == "approved" then Some(Approved)
    else if name == "disapproved" then Some(Disapproved)
    else if name == "in-progress" then Some(InProgress)
    else if name == "completed" then Some(Completed)
    else None
  }

  /** `StatusName` and `ParseStatus` are inverse: every status is named by exactly one
      literal, and every literal that parses names the status it parses to. */
  lemma StatusNameRoundTrip(s: TicketStatus, name: string)
    ensures ParseStatus(StatusName(s)) == Some(s)
    ensures ParseStatus(name) == Some(s) <==> StatusName(s) == name
  {
  }

  /** Comparing a stored status with one of its literals is comparing the statuses. */
  lemma StatusNameIs(s: TicketStatus)
    ensures StatusName(s) == "pending" <==> s == Pending
    ensures StatusName(s) == "approved" <==> s == Approved
    ensures StatusName(s) == "disapproved" <==> s == Disapproved
    ensures StatusName(s) == "completed" <==> s == Completed
  {
    match s
    case Pending =>
    case Approved =>
    case Disapproved =>
    case InProgress => assert StatusName(s)[0] != "disapproved"[0];
    case Completed =>
  }

  /** Comparing a priority with `'high'` is comparing it with `High`. */
  lemma PriorityNameIs(p: Priority)
    ensures PriorityName(p) == "high" <==> p == High
  {
  }

  /** `'rejected'` is not a ticket status: no stored ticket can carry it. */
  lemma RejectedIsNoStatus(s: TicketStatus)
    ensures ParseStatus("rejected") == None
    ensures StatusName(s) != "rejected"
  {
  }

  /** The string literal an incident report status is stored as. */
  function ReportStatusName(s: ReportStatus): (r: string)
    ensures r == "pending" || r == "completed"
  {
    match s
    case ReportPending => "pending"
    case ReportCompleted => "completed"
  }
}
