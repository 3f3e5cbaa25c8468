/** The incident-report view: the create-report form, the comma-separated list of items
    that need replacement, the status counts and the status badge. */
module IncidentReports {
  import opened Types
  import opened Text
  import Seqs
  import opened Store

  // ---------------------------------------------------------------- items to replace

  /** `pieces.map(item => item.trim())` */
  function TrimAll(pieces: seq<string>): (r: seq<string>)
    ensures |r| == |pieces|
    ensures forall i :: 0 <= i < |pieces| ==> r[i] == Trim(pieces[i])
  {
    if pieces == [] then [] else [Trim(pieces[0])] + TrimAll(pieces[1..])
  }

  /** `itemsNeedReplacement.split(',').map(item => item.trim())`: one item per
      comma-separated piece, empty pieces included, each without surrounding white space.
      There is always at least one item, so the "items need replacement" line of a
      report created through the form is always shown. */
  function ParseItems(text: string): (r: seq<string>)
    ensures |r| == Occurrences(text, ',') + 1
    ensures forall i :: 0 <= i < |r| ==> ',' !in r[i]
    ensures forall i :: 0 <= i < |r| ==> r[i] == [] || (!IsSpace(r[i][0]) && !IsSpace(r[i][|r[i]| - 1]))
  {
    var pieces := Split(text, ',');
    TrimAllCommaFree(pieces);
    TrimAll(pieces)
  }

  /** Trimming comma-free pieces leaves them comma-free. */
  lemma TrimAllCommaFree(pieces: seq<string>)
    requires forall i :: 0 <= i < |pieces| ==> ',' !in pieces[i]
    ensures forall i :: 0 <= i < |pieces| ==> ',' !in TrimAll(pieces)[i]
  {
    forall i | 0 <= i < |pieces| ensures ',' !in TrimAll(pieces)[i] {
      TrimInside(pieces[i]);
    }
  }

  /** Trimming only drops characters, so it adds no comma. */
  lemma TrimInside(s: string)
    ensures forall c :: c in Trim(s) ==> c in s
  {
    var n := LeadingSpaces(s);
    var r := Trim(s);
    forall c | c in r ensures c in s {
      var k :| 0 <= k < |r| && r[k] == c;
      assert s[n + k] == c;
    }
  }

  /** A string that neither starts nor ends with white space is left alone by `trim`. */
  lemma TrimTrimmed(s: string)
    requires s == [] || (!IsSpace(s[0]) && !IsSpace(s[|s| - 1]))
    ensures Trim(s) == s
  {
    if s != [] {
      assert LeadingSpaces(s) == 0;
      assert TrailingSpaces(s) == 0;
    }
  }

  /** Joining trimmed, comma-free item names with commas and parsing the text gives the
      names back. */
  lemma {:induction false} ParseItemsJoin(items: seq<string>)
    requires |items| > 0
    requires forall i :: 0 <= i < |items| ==> ',' !in items[i]
    requires forall i :: 0 <= i < |items| ==>
      items[i] == [] || (!IsSpace(items[i][0]) && !IsSpace(items[i][|items[i]| - 1]))
    ensures ParseItems(Join(items, ',')) == items
  {
    SplitJoin(items, ',');
    forall i | 0 <= i < |items| ensures Trim(items[i]) == items[i] {
      TrimTrimmed(items[i]);
    }
  }

  /** Nothing typed still gives one, empty, item. */
  lemma ParseItemsEmpty()
    ensures ParseItems("") == [""]
  {
    assert Split("", ',') == [""];
    assert Trim("") == "";
  }

  /** A doubled comma gives an empty item between its neighbours. */
  lemma ParseItemsDoubledComma()
    ensures ParseItems("a,,b") == ["a", "", "b"]
  {
    assert Join(["a", "", "b"], ',') == "a,,b" by {
      assert Join(["", "b"], ',') == ",b";
    }
    ParseItemsJoin(["a", "", "b"]);
  }

  /** Comma-plus-space separated names come out without the space: `"RAM, PSU"` gives
      `["RAM", "PSU"]`, and so does any such pair of names. */
  lemma ParseItemsSpaced(a: string, b: string)
    requires ',' !in a && ',' !in b
    requires a == [] || (!IsSpace(a[0]) && !IsSpace(a[|a| - 1]))
    requires b != [] && !IsSpace(b[0]) && !IsSpace(b[|b| - 1])
    ensures ParseItems(a + ", " + b) == [a, b]
  {
    SpacedPairSplits(a, b);
    TrimPair(a, b);
  }

  /** Names joined by a comma and a space split into the first name and the second
      with its space. */
  lemma SpacedPairSplits(a: string, b: string)
    requires ',' !in a && ',' !in b
    ensures Split(a + ", " + b, ',') == [a, [' '] + b]
  {
    var spaced := [' '] + b;
    assert Join([a, spaced], ',') == a + ", " + b by {
      assert Join([spaced], ',') == spaced;
    }
    SplitJoin([a, spaced], ',');
  }

  /** Trimming the two pieces gives the two names. */
  lemma TrimPair(a: string, b: string)
    requires a == [] || (!IsSpace(a[0]) && !IsSpace(a[|a| - 1]))
    requires b != [] && !IsSpace(b[0]) && !IsSpace(b[|b| - 1])
    ensures TrimAll([a, [' '] + b]) == [a, b]
  {
    var pieces := [a, [' '] + b];
    TrimTrimmed(a);
    TrimLeadingSpace(b);
    var r := TrimAll(pieces);
    assert r[0] == Trim(pieces[0]) && r[1] == Trim(pieces[1]);
  }

  /** One space before a name is dropped by `trim`. */
  lemma TrimLeadingSpace(t: string)
    requires t != [] && !IsSpace(t[0]) && !IsSpace(t[|t| - 1])
    ensures Trim([' '] + t) == t
  {
    var s := [' '] + t;
    assert s[1..] == t;
    assert LeadingSpaces(t) == 0;
    assert LeadingSpaces(s) == 1;
    assert TrailingSpaces(t) == 0;
  }

  // ---------------------------------------------------------------- the form

  /** The form state: the items are still one text field; `actionTaken` and `status`
      come from their select boxes. */
  datatype ReportForm = ReportForm(
    ticketId: string,
    technicianName: string,
    office: string,
    issueDescription: string,
    itemsNeedReplacement: string,
    actionTaken: string,
    status: ReportStatus)

  /** The initial and the reset form: empty text, a replacement action, pending. */
  function EmptyForm(): (f: ReportForm)
    ensures f.ticketId == "" && f.technicianName == "" && f.office == ""
    ensures f.issueDescription == "" && f.itemsNeedReplacement == ""
    ensures f.actionTaken == "REPLACEMENT" && f.status == ReportPending
  {
    ReportForm("", "", "", "", "", "REPLACEMENT", ReportPending)
  }

  /** One `onChange` event: the field named by the input and its new value. */
  datatype Edit =
    | SetTicketId(text: string)
    | SetTechnicianName(text: string)
    | SetOffice(text: string)
    | SetIssueDescription(text: string)
    | SetItemsNeedReplacement(text: string)
    | SetActionTaken(text: string)
    | SetStatus(status: ReportStatus)

  /** `handleChange`: the edited field takes the new value, the others keep theirs. */
  function ApplyEdit(f: ReportForm, e: Edit): (g: ReportForm)
    ensures e.SetTicketId? ==> g == f.(ticketId := e.text)
    ensures e.SetTechnicianName? ==> g == f.(technicianName := e.text)
    ensures e.SetOffice? ==> g == f.(office := e.text)
    ensures e.SetIssueDescription? ==> g == f.(issueDescription := e.text)
    ensures e.SetItemsNeedReplacement? ==> g == f.(itemsNeedReplacement := e.text)
    ensures e.SetActionTaken? ==> g == f.(actionTaken := e.text)
    ensures e.SetStatus? ==> g == f.(status := e.status)
  {
    match e
    case SetTicketId(t) => f.(ticketId := t)
    case SetTechnicianName(t) => f.(technicianName := t)
    case SetOffice(t) => f.(office := t)
    case SetIssueDescription(t) => f.(issueDescription := t)
    case SetItemsNeedReplacement(t) => f.(itemsNeedReplacement := t)
    case SetActionTaken(t) => f.(actionTaken := t)
    case SetStatus(s) => f.(status := s)
  }

  /** The report `handleSubmit` passes to the store: the form's fields unchanged, the
      items text parsed, and no replacement items yet. */
  function Submission(f: ReportForm): (d: IncidentDraft)
    ensures d.ticketId == f.ticketId && d.technicianName == f.technicianName
    ensures d.office == f.office && d.issueDescription == f.issueDescription
    ensures d.actionTaken == f.actionTaken && d.status == f.status
    ensures d.replacementItems == []
    ensures d.itemsNeedReplacement == ParseItems(f.itemsNeedReplacement)
    ensures |d.itemsNeedReplacement| == Occurrences(f.itemsNeedReplacement, ',') + 1
  {
    IncidentDraft(f.ticketId, f.technicianName, f.office, f.issueDescription,
      ParseItems(f.itemsNeedReplacement), [], f.actionTaken, f.status)
  }

  /** The view's own state: the form and whether its dialog is open. */
  class IncidentReportsView {
    var form: ReportForm
    var isFormOpen: bool

    constructor ()
      ensures form == EmptyForm() && !isFormOpen
    {
      form, isFormOpen := EmptyForm(), false;
    }

    /** The "Create Report" button. */
    method Open()
      modifies this
      ensures isFormOpen && form == old(form)
    {
      isFormOpen := true;
    }

    /** The close cross and the "Cancel" button: the typed values are kept. */
    method Close()
      modifies this
      ensures !isFormOpen && form == old(form)
    {
      isFormOpen := false;
    }

    method HandleChange(e: Edit)
      modifies this
      ensures form == ApplyEdit(old(form), e) && isFormOpen == old(isFormOpen)
    {
      form := ApplyEdit(form, e);
    }

    /** `handleSubmit`: stores one report built from the form, then resets the form and
        closes the dialog. */
    method HandleSubmit(store: DataStore, now: int, newId: string)
      modifies this, store
      ensures store.incidents == old(store.incidents) + [IncidentReport(newId,
        old(form).ticketId, old(form).technicianName, old(form).office, old(form).issueDescription,
        ParseItems(old(form).itemsNeedReplacement), [], old(form).actionTaken, now, old(form).status)]
      ensures store.tickets == old(store.tickets) && store.inventory == old(store.inventory)
      ensures store.messages == old(store.messages)
      ensures form == EmptyForm() && !isFormOpen
    {
      store.AddIncidentReport(Submission(form), now, newId);
      form := EmptyForm();
      isFormOpen := false;
    }
  }

  // ---------------------------------------------------------------- counts and badge

  function HasStatus(name: string): IncidentReport -> bool {
    (r: IncidentReport) => ReportStatusName(r.status) == name
  }

  /** `incidents.filter(incident => incident.status === name).length`, for the
      `'pending'` and `'completed'` cards: how many reports carry the status literal
      `name`; zero exactly when none does. */
  function ReportCount(rs: seq<IncidentReport>, name: string): (n: nat)
    ensures n <= |rs|
    ensures n == 0 <==> forall r :: r in rs ==> ReportStatusName(r.status) != name
  {
    var kept := Seqs.Filter(rs, HasStatus(name));
    assert kept != [] ==> kept[0] in kept;
    |kept|
  }

  /** Every report is either pending or completed, so the two counts add up to the
      total. */
  lemma {:induction false} CountsAddUp(rs: seq<IncidentReport>)
    ensures ReportCount(rs, "pending") + ReportCount(rs, "completed") == |rs|
  {
    if rs != [] {
      CountsAddUp(rs[1..]);
    }
  }

  /** The counts of no reports are zero, and a report submitted through the form is
      counted as pending or as completed after the one it follows, according to the
      form's status. Together these fix each count as the number of matching
      reports. */
  lemma {:induction false} CountsAfterSubmit(rs: seq<IncidentReport>, r: IncidentReport)
    ensures ReportCount([], "pending") == 0 && ReportCount([], "completed") == 0
    ensures ReportCount(rs + [r], "pending") == ReportCount(rs, "pending") + (if r.status == ReportPending then 1 else 0)
    ensures ReportCount(rs + [r], "completed") == ReportCount(rs, "completed") + (if r.status == ReportCompleted then 1 else 0)
  {
    Seqs.FilterAppend(rs, [r], HasStatus("pending"));
    Seqs.FilterAppend(rs, [r], HasStatus("completed"));
  }

  /** The status badge as written: yellow for `'pending troubleshooting'`, green for
      anything else. */
  predicate BadgeIsYellow(r: IncidentReport) {
    ReportStatusName(r.status) == "pending troubleshooting"
  }

  /** No report status is `'pending troubleshooting'`: every badge is green, pending
      reports included. */
  lemma BadgeNeverYellow(r: IncidentReport)
    ensures !BadgeIsYellow(r)
  {
  }

  /** The badge as the stats cards colour it: yellow for the pending reports. */
  predicate PendingBadgeIsYellow(r: IncidentReport) {
    ReportStatusName(r.status) == "pending"
  }

  /** The corrected badge is yellow exactly for pending reports and green exactly for
      completed ones. */
  lemma PendingBadgeIsPending(r: IncidentReport)
    ensures PendingBadgeIsYellow(r) <==> r.status == ReportPending
    ensures !PendingBadgeIsYellow(r) <==> r.status == ReportCompleted
  {
  }
}
