# IT-support front end: record store and derived views

This project models the logic of a school IT-support web front end written in
TypeScript and React. It has two layers.

- **The in-memory record store.** `Store.DataStore` is a class with four `seq`
  fields: tickets, inventory items, incident reports and messages. Its methods
  append a record, merge an update into the records with a given id, delete by id,
  and set a message's read flag, as the `DataProvider` does.
- **The views built from that store.**
  - The messaging page: conversations, ordering, unread badges, sending, and the
    effect that marks an opened conversation read.
  - The incident-report form: the comma-separated list of items, the counts and the
    badge.
  - The "view requests" page: per-user and per-status filters, stats, colours and
    labels.
  - The troubleshooting guide list: the search and category filter, related guides,
    counts and the preview toggle.
  - The dashboard: stat cards chosen by role, unread messages and recent tickets.

The record types and their closed string-literal enums are datatypes in `Types`.
JavaScript string operations are written out in `Text`:

- `trim`, `split` and `join`;
- ASCII `toLowerCase`/`toUpperCase` and `includes`;
- `String(n)` and `padStart`.

Generic list filtering is in `Seqs`.

Where the source changes state step by step, the model is imperative:

- the store's collections;
- the `reduce` that groups conversations into a map;
- the in-place sort of an open conversation, kept on an `array`;
- the effect's loop of `markMessageAsRead` calls;
- the form state of the incident-report view;
- the page state of the troubleshooting view.

Each of these methods is specified against pure functions, whose properties are
lemmas.

The clock and the id generator are parameters. `now` is the millisecond timestamp
that `new Date()` would give, and `newId` is the string `Date.now().toString()`
would give. A signed-in user is `Some(user)`. With nobody signed in, `user?.id` is
`undefined` and matches no record; this is `None`.

The views compare ticket statuses as string literals. `Types.StatusName` gives the
literal each status is stored as, and `Types.ParseStatus` is its inverse. That is
how the model shows that the views' `'rejected'` never matches a stored ticket.

## Model

| member | source | states |
|---|---|---|
| Types.PriorityName | src/types/index.ts:17 | a priority is stored as one of `low`, `medium`, `high` |
| Types.StatusName | src/types/index.ts:18 | a ticket status is stored as one of the five literals `pending`, `approved`, `disapproved`, `in-progress`, `completed` |
| Types.StatusNameRoundTrip | src/types/index.ts:18 | each status has exactly one literal, and parsing a literal gives the status back exactly when the literal is that status's name |
| Types.RejectedIsNoStatus | src/types/index.ts:18 | `rejected` is not a legal stored status: no status is written `rejected` and parsing it gives nothing |
| Types.StatusNameIs | src/types/index.ts:18 | a stored status equals one of the literals exactly when it is the status that literal names |
| Types.PriorityNameIs | src/types/index.ts:17 | a priority is `'high'` exactly when it is `High` |
| Types.ReportStatusName | src/types/index.ts:47 | an incident report's status is `pending` or `completed` |
| Text.Trim | src/components/admin/IncidentReports.tsx:23 | `trim` gives the slice of the input left after cutting the leading white space and the trailing white space; the slice starts and ends with no white space, what is cut after it is all white space, and it is empty exactly when the input is all white space |
| Text.TrimIdempotent | src/components/shared/Messages.tsx:38 | trimming twice is trimming once |
| Text.Split | src/components/admin/IncidentReports.tsx:23 | `split(',')` gives one more piece than there are separators, and no piece holds a separator |
| Text.JoinSplit | src/components/admin/IncidentReports.tsx:23 | joining the pieces of a split gives back the text |
| Text.SplitJoin | src/components/admin/IncidentReports.tsx:23 | splitting a join of separator-free pieces gives back the pieces |
| Text.SplitNoSeparator | src/components/admin/IncidentReports.tsx:23 | text without the separator splits into itself alone |
| Text.SplitPrefix | src/components/admin/IncidentReports.tsx:23 | a separator-free prefix followed by the separator is split off as the first piece |
| Text.LowerChar | src/components/user/Troubleshooting.tsx:330-332 | `toLowerCase` maps each upper-case ASCII letter to its own lower-case letter (code point plus 32) and leaves every other character alone |
| Text.UpperChar | src/components/user/ViewRequests.tsx:64 | `toUpperCase` maps each lower-case ASCII letter to its own capital (code point minus 32) and leaves every other character alone |
| Text.ToLower | src/components/user/Troubleshooting.tsx:330-332 | a lower-cased string has the same length, with each character lower-cased |
| Text.ToUpper | src/components/user/ViewRequests.tsx:64 | an upper-cased string has the same length, with each character upper-cased |
| Text.ContainsAt | src/components/user/Troubleshooting.tsx:330-332 | `includes` holds when the needle occurs as a slice at some position |
| Text.ContainsOccurs | src/components/user/Troubleshooting.tsx:330-332 | conversely, when `includes` holds the needle occurs as a slice at some position |
| Text.ContainsLength | src/components/user/Troubleshooting.tsx:330-332 | a string containing the needle is at least as long as the needle |
| Text.NatToDecimal | src/contexts/DataContext.tsx:230 | `String(n)` is a non-empty string of digits without a leading zero, unless `n` is 0 |
| Text.DecimalRoundTrip | src/contexts/DataContext.tsx:230 | reading back the digits of `String(n)` gives `n` |
| Text.LeadingZeros | src/contexts/DataContext.tsx:230 | zeros put in front of a digit string do not change its value |
| Text.PadStart | src/contexts/DataContext.tsx:230 | `padStart` never truncates: the result is the input, preceded by fill characters up to the width |
| Store.TicketNumber | src/contexts/DataContext.tsx:230 | the number of the ticket appended after `count` tickets is `TK` followed by at least four digits that read back as `count + 1` |
| Store.TicketNumberWidth | src/contexts/DataContext.tsx:230 | the digits are exactly as many as `count + 1` needs, and at least four |
| Store.PaddedDecimal | src/contexts/DataContext.tsx:230 | `String(n).padStart(4, '0')` is at least four digits long, all digits, and reads back as `n` |
| Store.FirstTicketNumber | src/contexts/DataContext.tsx:230 | the first ticket of an empty store is `TK0001` |
| Store.TicketNumberAfterSeed | src/contexts/DataContext.tsx:192-230 | after the two seed tickets the next ticket is `TK0003` |
| Store.TicketNumberNotTruncated | src/contexts/DataContext.tsx:230 | after 9999 tickets the number is `TK10000`, not cut to four digits |
| Store.TicketNumberOf | src/contexts/DataContext.tsx:230 | a one-digit count is padded with three zeros |
| Store.MergeTicket | src/contexts/DataContext.tsx:239 | a merged ticket's `updatedAt` is `now`, even when the update carries one of its own |
| Store.MergeTicketNarrow | src/contexts/DataContext.tsx:239 | an empty update only refreshes `updatedAt`; a status update changes exactly the status and `updatedAt` |
| Store.UpdateTickets | src/contexts/DataContext.tsx:237-241 | the same tickets in the same order: those with the id are merged with the update, every other one is untouched |
| Store.UpdateTicketsUnknownId | src/contexts/DataContext.tsx:237-241 | an unknown id leaves the collection unchanged |
| Store.UpdateTicketsIdempotent | src/contexts/DataContext.tsx:237-241 | applying the same update twice at the same instant is applying it once |
| Store.DecisionStatus | src/contexts/DataContext.tsx:247 | `approved` is stored as `approved` and `rejected` as `disapproved`, and these are the only outcomes |
| Store.ReviewTickets | src/contexts/DataContext.tsx:243-251 | matching tickets get the mapped status and `updatedAt = now`; every other field and ticket is unchanged |
| Store.ReviewIsStatusUpdate | src/contexts/DataContext.tsx:237-251 | `updateRequestStatus` equals `updateTicket` with the update `{ status }` |
| Store.RejectStoresDisapproved | src/contexts/DataContext.tsx:247 | a rejected ticket's stored status reads `disapproved` |
| Store.UpdateItems | src/contexts/DataContext.tsx:260-264 | items with the id are merged with the update and every other item is untouched; no timestamp is involved |
| Store.UpdateItemsProperties | src/contexts/DataContext.tsx:260-264 | updating twice is updating once, and an unknown id leaves the inventory unchanged |
| Store.CountId | src/contexts/DataContext.tsx:266-268 | the number of items carrying an id is at most the inventory's length |
| Store.WithoutId | src/contexts/DataContext.tsx:266-268 | deletion keeps exactly the items without the id, and the length drops by the number of matches |
| Store.WithoutIdAppend | src/contexts/DataContext.tsx:266-268 | deletion keeps the survivors in order: deleting from a concatenation deletes from each part |
| Store.WithoutIdProperties | src/contexts/DataContext.tsx:266-268 | deleting an unknown id changes nothing, and deleting twice is deleting once |
| Store.MarkRead | src/contexts/DataContext.tsx:289-293 | only messages with the id get `read = true`; the others are untouched |
| Store.MarkReadProperties | src/contexts/DataContext.tsx:289-293 | marking is idempotent, never clears a read flag, and changes nothing but the flag |
| Store.SampleTicketsConsistent | src/contexts/DataContext.tsx:192-223 | the seed tickets carry the numbers `addTicket` would have given them, and neither is updated before it is created |
| Store.DataStore.constructor | src/contexts/DataContext.tsx:121-124 | all four collections start empty |
| Store.DataStore.LoadSampleData | src/contexts/DataContext.tsx:127-224 | the mount effect replaces inventory and tickets with the seed lists; incidents and messages are unchanged |
| Store.DataStore.AddTicket | src/contexts/DataContext.tsx:226-235 | appends exactly one ticket: the caller's fields, the draft's status included, are kept; the number is `TicketNumber` of the old length; `createdAt == updatedAt == now`; the other collections are unchanged |
| Store.DataStore.UpdateTicket | src/contexts/DataContext.tsx:237-241 | tickets become `UpdateTickets` of the old tickets; nothing else changes |
| Store.DataStore.UpdateRequestStatus | src/contexts/DataContext.tsx:243-251 | tickets become `ReviewTickets` of the old tickets; nothing else changes |
| Store.DataStore.AddInventoryItem | src/contexts/DataContext.tsx:252-258 | appends the draft under the new id; nothing else changes |
| Store.DataStore.UpdateInventoryItem | src/contexts/DataContext.tsx:260-264 | inventory becomes `UpdateItems` of the old inventory; nothing else changes |
| Store.DataStore.DeleteInventoryItem | src/contexts/DataContext.tsx:266-268 | inventory becomes `WithoutId` of the old inventory, shorter by the number of matches; nothing else changes |
| Store.DataStore.AddIncidentReport | src/contexts/DataContext.tsx:270-277 | appends the draft under the new id, dated `now`; nothing else changes |
| Store.DataStore.AddMessage | src/contexts/DataContext.tsx:279-287 | appends the draft under the new id, sent at `now` and unread whatever `read` the caller passed; nothing else changes |
| Store.DataStore.MarkMessageAsRead | src/contexts/DataContext.tsx:289-293 | messages become `MarkRead` of the old messages; nothing else changes |
| Messages.UserMessages | src/components/shared/Messages.tsx:15-17 | a message is listed exactly when it is in the store and the user sent or received it |
| Messages.UserMessagesAppend | src/components/shared/Messages.tsx:15-17 | the list keeps store order: an appended message shows up last when it involves the user, and not at all otherwise |
| Messages.Conversation | src/components/shared/Messages.tsx:20-27 | a conversation holds exactly the user's messages whose other party is its key |
| Messages.ConversationsPartition | src/components/shared/Messages.tsx:21 | every user message lies in the conversation of its own key and in no other |
| Messages.GroupConversations | src/components/shared/Messages.tsx:20-27 | the `reduce` gives one key per other party that occurs, and under each key that party's messages in store order, never an empty group |
| Messages.GroupStep | src/components/shared/Messages.tsx:22-25 | one step of the `reduce` keeps the accumulator equal to the grouping of the messages seen so far |
| Messages.GroupedKeys | src/components/shared/Messages.tsx:20-27 | a grouping's keys are exactly the other parties that occur, and no group is empty |
| Messages.ConversationStepAt | src/components/shared/Messages.tsx:22-25 | one more message extends only its own key's group, at the end |
| Messages.LatestIsMax | src/components/shared/Messages.tsx:31-32 | the `Math.max` of a conversation's timestamps bounds every message and belongs to one of them |
| Messages.InsertNewest | src/components/shared/Messages.tsx:30-34 | inserting a conversation into a newest-first list keeps it newest first and adds exactly that entry |
| Messages.SortConversations | src/components/shared/Messages.tsx:30-34 | the sorted list holds every conversation exactly once with its messages, ordered by latest timestamp, newest first |
| Messages.SwapAdjacent | src/components/shared/Messages.tsx:57-59 | exchanges two neighbouring messages and keeps the multiset |
| Messages.SortByTimestamp | src/components/shared/Messages.tsx:57-59 | the in-place sort leaves the array ordered by timestamp, oldest first, and a permutation of what it held |
| Messages.SelectedMessages | src/components/shared/Messages.tsx:56-59 | the open conversation is a permutation of its group, sorted oldest first; it is empty when nothing is selected or the key has no group |
| Messages.UnreadCount | src/components/shared/Messages.tsx:110-112 | a conversation's badge is zero exactly when none of its messages is addressed to the user and unread, with UnreadCountAfterAdd fixing the number printed |
| Messages.UnreadCountAfterAdd | src/components/shared/Messages.tsx:110-112 | the badge of no messages is 0, and an added message raises it by one exactly when it is addressed to the user and unread |
| Messages.MarkAllRead | src/components/shared/Messages.tsx:66 | marking a set of ids sets `read` on exactly the messages with those ids |
| Messages.SameUnreadIds | src/components/shared/Messages.tsx:62-68 | reordering a conversation, as the sort does, keeps its set of unread ids |
| Messages.ShownUnreadIsMarked | src/components/shared/Messages.tsx:62-68 | every unread message of the opened conversation is among those the effect marks |
| Messages.OpenedConversationIsRead | src/components/shared/Messages.tsx:62-68 | once the effect has run, the opened conversation, recomputed from the new store, has an unread count of 0 |
| Messages.Outgoing | src/components/shared/Messages.tsx:36-47 | nothing is sent exactly when the trimmed text is empty or no conversation is selected; otherwise the message goes from the user to the selected party with the trimmed, non-empty text |
| Messages.StartTarget | src/components/shared/Messages.tsx:50-54 | an admin starts the conversation with `'2'`, any other role the one with `'1'` |
| Messages.MessagesView.constructor | src/components/shared/Messages.tsx:9-10 | empty input, no conversation selected |
| Messages.MessagesView.Type | src/components/shared/Messages.tsx:9 | typing replaces the input text only |
| Messages.MessagesView.Select | src/components/shared/Messages.tsx:10 | clicking a conversation selects it and keeps the input |
| Messages.MessagesView.HandleStartConversation | src/components/shared/Messages.tsx:50-54 | selects `StartTarget` of the user's role |
| Messages.MessagesView.HandleSendMessage | src/components/shared/Messages.tsx:36-48 | with no outgoing message, store and input are unchanged; otherwise exactly one unread message is appended and the input is cleared; the selection and the other collections never change |
| Messages.MessagesView.MarkOpenedRead | src/components/shared/Messages.tsx:62-68 | with nothing selected the store is unchanged; otherwise the messages become `MarkAllRead` of the old ones with the ids of the opened conversation's messages addressed to the user and unread, and that conversation's unread count is 0 afterwards; only messages change |
| Messages.MarkEachRead | src/components/shared/Messages.tsx:64-66 | calling `markMessageAsRead` for each pending message marks exactly their ids; only messages change |
| IncidentReports.TrimAll | src/components/admin/IncidentReports.tsx:23 | `map(item => item.trim())` trims each piece in place |
| IncidentReports.ParseItems | src/components/admin/IncidentReports.tsx:23 | there is one item per comma-separated piece, so the count is the number of commas plus one; no item holds a comma or starts or ends with white space |
| IncidentReports.TrimInside | src/components/admin/IncidentReports.tsx:23 | trimming adds no character, so it adds no comma |
| IncidentReports.TrimTrimmed | src/components/admin/IncidentReports.tsx:23 | a string with no surrounding white space is left alone by `trim` |
| IncidentReports.ParseItemsJoin | src/components/admin/IncidentReports.tsx:23 | joining trimmed, comma-free names with commas and parsing the text gives the names back |
| IncidentReports.ParseItemsEmpty | src/components/admin/IncidentReports.tsx:23 | an empty field gives `[""]`, so the non-empty check at line 153 holds for every form-created report |
| IncidentReports.ParseItemsDoubledComma | src/components/admin/IncidentReports.tsx:23 | `"a,,b"` gives `["a", "", "b"]`: empty pieces are kept |
| IncidentReports.TrimAllCommaFree | src/components/admin/IncidentReports.tsx:23 | trimming comma-free pieces adds no comma |
| IncidentReports.ParseItemsSpaced | src/components/admin/IncidentReports.tsx:23 | two names written with a comma and a space, such as `"RAM, PSU"`, give the two names without the space |
| IncidentReports.SpacedPairSplits | src/components/admin/IncidentReports.tsx:23 | `a, b` splits at the comma into `a` and ` b` |
| IncidentReports.TrimPair | src/components/admin/IncidentReports.tsx:23 | trimming `a` and ` b` gives `a` and `b` |
| IncidentReports.TrimLeadingSpace | src/components/admin/IncidentReports.tsx:23 | `trim` drops one leading space before a name |
| IncidentReports.EmptyForm | src/components/admin/IncidentReports.tsx:8-16 | the initial form: empty strings, `actionTaken = REPLACEMENT`, `status = pending` |
| IncidentReports.ApplyEdit | src/components/admin/IncidentReports.tsx:40-46 | an edit changes the named field to the new value and no other field |
| IncidentReports.Submission | src/components/admin/IncidentReports.tsx:21-24 | the report handed to the store carries every form field unchanged, the items as `ParseItems` of the typed text (one per comma-separated piece), and no replacement items |
| IncidentReports.IncidentReportsView.constructor | src/components/admin/IncidentReports.tsx:7-16 | the form is empty and the dialog closed |
| IncidentReports.IncidentReportsView.Open | src/components/admin/IncidentReports.tsx:56 | opens the dialog and keeps the form |
| IncidentReports.IncidentReportsView.Close | src/components/admin/IncidentReports.tsx:181 | closes the dialog and keeps the typed values |
| IncidentReports.IncidentReportsView.HandleChange | src/components/admin/IncidentReports.tsx:40-46 | the form becomes `ApplyEdit` of the old form; the dialog stays as it was |
| IncidentReports.IncidentReportsView.HandleSubmit | src/components/admin/IncidentReports.tsx:18-38 | appends exactly one report, built from the old form with parsed items and dated `now`; the form is reset to `EmptyForm` and the dialog closed; the other collections are unchanged |
| IncidentReports.ReportCount | src/components/admin/IncidentReports.tsx:83-97 | the `'pending'` and `'completed'` cards: at most the total, and zero exactly when no report carries the literal |
| IncidentReports.CountsAddUp | src/components/admin/IncidentReports.tsx:70-97 | pending plus completed equals the total |
| IncidentReports.CountsAfterSubmit | src/components/admin/IncidentReports.tsx:83-97 | the counts of no reports are 0, and a new report raises exactly the count of its own status, by one |
| IncidentReports.BadgeNeverYellow | src/components/admin/IncidentReports.tsx:125 | as written, no report gets the yellow badge, pending ones included |
| IncidentReports.PendingBadgeIsPending | src/components/admin/IncidentReports.tsx:125 | the corrected badge is yellow exactly for pending reports and green exactly for completed ones |
| ViewRequests.UserRequests | src/components/user/ViewRequests.tsx:13 | a ticket is listed exactly when it belongs to the signed-in user; with nobody signed in the list is empty |
| ViewRequests.UserRequestsAfterAdd | src/components/user/ViewRequests.tsx:13 | the list keeps store order: a ticket added for the user is listed last, and one added for somebody else is not listed |
| ViewRequests.FilteredRequests | src/components/user/ViewRequests.tsx:15-18 | `'all'` lists the user's tickets unchanged; any other value keeps exactly the tickets whose status literal equals it |
| ViewRequests.RejectedFilterIsEmpty | src/components/user/ViewRequests.tsx:198 | the `'rejected'` option never lists a ticket |
| ViewRequests.FilterByParsedStatus | src/components/user/ViewRequests.tsx:15-18 | a literal that names no status lists nothing; one that does lists exactly the tickets with that status |
| ViewRequests.RequestStats | src/components/user/ViewRequests.tsx:42-48 | total is the list length; pending and approved are the counts of tickets with exactly that status literal, rejected the count of `'rejected'`, which is always 0, and priority the count of high-priority tickets; pending and approved never overlap |
| ViewRequests.PendingApprovedDisjoint | src/components/user/ViewRequests.tsx:44-45 | no ticket is counted as both pending and approved |
| ViewRequests.CountStatus | src/components/user/ViewRequests.tsx:44-46 | a status count is at most the list length and zero exactly when no ticket carries the literal |
| ViewRequests.CountHighPriority | src/components/user/ViewRequests.tsx:47 | the high-priority count is at most the list length and zero exactly when no ticket is of high priority |
| ViewRequests.CountsAfterAdd | src/components/user/ViewRequests.tsx:44-47 | the counts of an empty list are 0, and appending a ticket raises exactly the counts it matches, by one, which fixes each count as the number of matching tickets |
| ViewRequests.RequestStatsAfterAdd | src/components/user/ViewRequests.tsx:42-48 | a ticket added to the list raises the total by one and the pending, approved and priority cards by one exactly when it is pending, approved or of high priority; rejected stays 0 |
| ViewRequests.RejectionNotCounted | src/components/user/ViewRequests.tsx:46 | after the store rejects one of the user's tickets, the rejected card still shows 0 and the `'rejected'` filter still lists nothing |
| ViewRequests.CorrectedStats | src/components/user/ViewRequests.tsx:42-48 | as the page evidently means it: the same cards, with rejected the count of `'disapproved'` tickets, zero exactly when no listed ticket was disapproved |
| ViewRequests.DisapprovedCounted | src/components/user/ViewRequests.tsx:46 | the `'disapproved'` count is zero exactly when no ticket is disapproved |
| ViewRequests.RejectionCountedWhenCorrected | src/components/user/ViewRequests.tsx:46 | with the correction, rejecting one of the user's tickets makes the rejected card non-zero |
| ViewRequests.StatusColour | src/components/user/ViewRequests.tsx:20-27 | yellow exactly for `pending`, green exactly for `approved`, red exactly for `rejected`, gray exactly for every other literal |
| ViewRequests.StoredStatusNeverRed | src/components/user/ViewRequests.tsx:20-27 | the three named literals get three different colours, but a stored ticket is never red, and it is gray exactly when it is neither pending nor approved |
| ViewRequests.CorrectedStatusColour | src/components/user/ViewRequests.tsx:20-27 | the corrected colour is gray exactly for the literals other than `pending`, `approved` and `disapproved` |
| ViewRequests.CorrectedColourShowsRejection | src/components/user/ViewRequests.tsx:24 | with the correction, a stored ticket is red exactly when it was disapproved, yellow exactly when pending and green exactly when approved |
| ViewRequests.PriorityColour | src/components/user/ViewRequests.tsx:38-40 | `getPriorityColor`, which the page defines but never calls: red exactly for `high`, blue otherwise |
| ViewRequests.PriorityColourMatchesCount | src/components/user/ViewRequests.tsx:218 | a row gets the red highlight exactly when its ticket is counted in the priority card, that is, when its priority is high; the unused `getPriorityColor` agrees |
| ViewRequests.LastSix | src/components/user/ViewRequests.tsx:221 | `slice(-6)` is the last six characters, or the whole id when it is shorter |
| ViewRequests.TicketLabel | src/components/user/ViewRequests.tsx:221 | the label is the id's last six characters, or the whole id when it is shorter, upper-cased |
| ViewRequests.TicketLabelIdempotent | src/components/user/ViewRequests.tsx:64 | labelling a label changes nothing |
| ViewRequests.DigitIdLabel | src/components/user/ViewRequests.tsx:221 | a digit id's label is its last six digits unchanged |
| ViewRequests.StatusLabel | src/components/user/ViewRequests.tsx:234 | the label has the status's length, its first character upper-cased and the rest unchanged |
| ViewRequests.PendingLabel | src/components/user/ViewRequests.tsx:234 | `pending` reads `Pending` |
| ViewRequests.InProgressLabel | src/components/user/ViewRequests.tsx:234 | `in-progress` reads `In-progress` |
| ViewRequests.DisapprovedLabel | src/components/user/ViewRequests.tsx:234 | `disapproved` reads `Disapproved` |
| ViewRequests.StatusLabelsDistinct | src/components/user/ViewRequests.tsx:234 | no two stored statuses share a label |
| Troubleshooting.GuideList | src/components/user/Troubleshooting.tsx:40-319 | the page lists six guides |
| Troubleshooting.GuidesWellFormed | src/components/user/Troubleshooting.tsx:40-321 | whatever their texts, the six guides have distinct ids, each in a category the filter offers |
| Troubleshooting.FilteredGuides | src/components/user/Troubleshooting.tsx:329-335 | a guide is kept exactly when the lower-cased term occurs in its lower-cased title, description or a symptom, and the category is `'All'` or its own |
| Troubleshooting.EmptySearchListsAll | src/components/user/Troubleshooting.tsx:329-335 | an empty search with `'All'` lists every guide, in order |
| Troubleshooting.UnusedCategoryListsNothing | src/components/user/Troubleshooting.tsx:334 | a category no guide has lists nothing, whatever is typed |
| Troubleshooting.SoftwareListsNothing | src/components/user/Troubleshooting.tsx:321 | `'Software'` is offered, but it lists no guide |
| Troubleshooting.LowerUpperChar | src/components/user/Troubleshooting.tsx:330-332 | lower-casing a character twice, or after upper-casing it, is lower-casing it once |
| Troubleshooting.ToLowerForgetsCase | src/components/user/Troubleshooting.tsx:330-332 | lower-casing forgets the case a string was typed in |
| Troubleshooting.SearchIgnoresCase | src/components/user/Troubleshooting.tsx:330-332 | typing the search term upper- or lower-cased lists the same guides |
| Troubleshooting.CategoryNarrows | src/components/user/Troubleshooting.tsx:333 | choosing a category never lists more guides than `'All'` |
| Troubleshooting.Find | src/components/user/Troubleshooting.tsx:458 | `find` gives nothing exactly when no guide has the id; otherwise it gives a guide of the list with that id |
| Troubleshooting.FindFirst | src/components/user/Troubleshooting.tsx:458 | `find` returns the first guide with the id |
| Troubleshooting.Resolve | src/components/user/Troubleshooting.tsx:457-459 | the related buttons are at most as many as the ids, and each shows a guide of the list named by one of them |
| Troubleshooting.ResolveComplete | src/components/user/Troubleshooting.tsx:457-459 | no id that names a guide is skipped |
| Troubleshooting.RelatedGuides | src/components/user/Troubleshooting.tsx:453-459 | no section without related ids; every button is a listed guide named by the guide's related ids |
| Troubleshooting.FirstOfTwoResolves | src/components/user/Troubleshooting.tsx:457-459 | of two ids where only the first names a guide, only that guide is shown |
| Troubleshooting.NeitherResolves | src/components/user/Troubleshooting.tsx:457-459 | two ids that name no guide show nothing |
| Troubleshooting.RelatedOfPair | src/components/user/Troubleshooting.tsx:453-459 | a guide relating two ids, where only the first resolves, shows that guide alone |
| Troubleshooting.FindKeyboard | src/components/user/Troubleshooting.tsx:272-318 | the keyboard guide is found by its id |
| Troubleshooting.FindMouse | src/components/user/Troubleshooting.tsx:226-271 | the mouse guide is found by its id |
| Troubleshooting.AbsentByLength | src/components/user/Troubleshooting.tsx:458 | `find` gives nothing for an id whose length no guide id has |
| Troubleshooting.AbsentFromSix | src/components/user/Troubleshooting.tsx:458 | the same for a list of six guides |
| Troubleshooting.AbsentFromGuides | src/components/user/Troubleshooting.tsx:40-319 | an id of none of the guide ids' lengths, such as `touchpad-issues` or `special-keys-not-working`, names no guide |
| Troubleshooting.MouseRelatesToKeyboard | src/components/user/Troubleshooting.tsx:226-271 | the mouse guide's related section shows the keyboard guide only |
| Troubleshooting.KeyboardRelatesToMouse | src/components/user/Troubleshooting.tsx:272-318 | the keyboard guide's related section shows the mouse guide only |
| Troubleshooting.DanglingRelatedGuides | src/components/user/Troubleshooting.tsx:41-85 | the first guide draws a "Related Guides" section with no button in it |
| Troubleshooting.VideoCount | src/components/user/Troubleshooting.tsx:549 | the "With Videos" count of a list is at most its length |
| Troubleshooting.CategoryCount | src/components/user/Troubleshooting.tsx:537 | the "Categories" card counts the distinct categories offered besides `'All'`, which are five |
| Troubleshooting.OnlyFirstHasVideo | src/components/user/Troubleshooting.tsx:549 | a list where only the first guide has a video counts that guide alone |
| Troubleshooting.StatsOfTheList | src/components/user/Troubleshooting.tsx:526-549 | the cards show six guides, five categories and one guide with a video, the first |
| Troubleshooting.Toggled | src/components/user/Troubleshooting.tsx:598 | clicking the expanded guide collapses it; clicking any other guide expands that one |
| Troubleshooting.ToggleTwice | src/components/user/Troubleshooting.tsx:598 | two clicks on a closed guide leave no preview open, and two on the open guide leave it open |
| Troubleshooting.TroubleshootingView.constructor | src/components/user/Troubleshooting.tsx:324-327 | empty search, `'All'`, no preview, no guide opened |
| Troubleshooting.TroubleshootingView.Search | src/components/user/Troubleshooting.tsx:501 | typing changes the search term only |
| Troubleshooting.TroubleshootingView.ChooseCategory | src/components/user/Troubleshooting.tsx:509 | choosing changes the category only |
| Troubleshooting.TroubleshootingView.TogglePreview | src/components/user/Troubleshooting.tsx:598 | the preview becomes `Toggled` of the old one; nothing else changes |
| Troubleshooting.TroubleshootingView.ViewGuide | src/components/user/Troubleshooting.tsx:592 | opens the guide; the list state is kept |
| Troubleshooting.TroubleshootingView.Back | src/components/user/Troubleshooting.tsx:350 | returns to the list with its search, category and preview as they were |
| Dashboard.UnreadMessages | src/components/Dashboard.tsx:20 | a message is listed exactly when it is addressed to the signed-in user and unread |
| Dashboard.UnreadAgreesWithMessages | src/components/Dashboard.tsx:20 | the dashboard's unread count equals the messaging view's unread count over the user's messages |
| Dashboard.UnreadAfterSend | src/components/Dashboard.tsx:20 | a sent message raises its receiver's unread count by one and nobody else's |
| Dashboard.UnreadAfterMarkRead | src/components/Dashboard.tsx:20 | marking a message read never raises an unread count |
| Dashboard.AdminStats | src/components/Dashboard.tsx:43-72 | total tickets, inventory items and incident reports are plain lengths; pending is the count of `'pending'` tickets over all tickets, at most the total |
| Dashboard.InventoryCardIgnoresQuantity | src/components/Dashboard.tsx:60 | changing an item's quantity leaves every admin card unchanged: quantities are not summed |
| Dashboard.UserStats | src/components/Dashboard.tsx:74-103 | my tickets is the user's ticket count; pending and completed are the counts of `'pending'` and `'completed'` among the user's tickets, together at most that; unread is the unread-message count |
| Dashboard.PendingCompletedDisjoint | src/components/Dashboard.tsx:84-91 | no ticket is counted as both pending and completed |
| Dashboard.AdminPendingAfterAdd | src/components/Dashboard.tsx:53 | an added ticket raises the admin's pending card by one exactly when it is pending |
| Dashboard.UserCardsAfterAdd | src/components/Dashboard.tsx:84-91 | an added ticket raises the user's pending or completed card by one exactly when it is the user's own and has that status |
| Dashboard.UserPendingWithinAdminPending | src/components/Dashboard.tsx:53-84 | a user's pending card never exceeds the admin's pending card |
| Dashboard.Stats | src/components/Dashboard.tsx:105 | the cards are AdminStats for an admin and UserStats for every other role and for nobody signed in, whose values those rows state |
| Dashboard.SignedOutStats | src/components/Dashboard.tsx:19-20 | with nobody signed in, the user cards show zero tickets and zero unread messages |
| Dashboard.RecentTickets | src/components/Dashboard.tsx:138-140 | the list is the first five of the admin's or the user's tickets, in collection order, or all of them when there are fewer |
| Dashboard.RecentIgnoresNewTickets | src/components/Dashboard.tsx:138-140 | once an admin's collection holds five tickets, a new ticket never appears: the list shows the oldest |
| Dashboard.RecentIgnoresNewOwnTickets | src/components/Dashboard.tsx:138-140 | the same holds for a user's own list once it holds five tickets |
| Dashboard.NoTicketsFound | src/components/Dashboard.tsx:156-158 | "No tickets found" is shown exactly when the list it would slice is empty |
| Dashboard.TicketBadge | src/components/Dashboard.tsx:146-151 | yellow exactly for `pending`, green exactly for `approved`, blue exactly for `completed`, red for every other literal, never gray |
| Dashboard.RedBadges | src/components/Dashboard.tsx:146-151 | a stored ticket's badge is red exactly when it was disapproved or is in progress, and blue exactly when completed |

## Left out

- React plumbing is not modelled: `useState` setters, effect scheduling and re-rendering, the context provider, and the `useData` guard that throws outside the provider (src/contexts/DataContext.tsx:318-324). Operations run strictly one after another.
- `addTicket` reads `tickets.length` from the render's closure, and a second call in the same render would see a stale length (src/contexts/DataContext.tsx:230). The model uses the length at the time of the call.
- Clocks and ids: `new Date()` and `Date.now().toString()` are the parameters `now` and `newId`. Nothing is claimed about id uniqueness or increasing timestamps, because nothing in the code enforces them.
- Dates are millisecond integers. The seed tickets' date-times (src/contexts/DataContext.tsx:203-217) are read as UTC, where the browser reads such literals in local time; the inventory purchase dates are date-only literals, which the browser also reads as UTC, so those values are exact. Locale formatting of dates is rendering and is not modelled.
- Text.LowerChar, Text.UpperChar: case mapping covers ASCII letters only, not the full Unicode case tables of `toLowerCase`/`toUpperCase`.
- Text.IsSpace: `trim` removes the ASCII white space and line terminators, no-break space, the byte-order mark and the line and paragraph separators; the other Unicode space separators (U+1680, U+2000 to U+200A, U+202F, U+205F, U+3000) are not modelled.
- Store.MergeTicket, Store.MergeItem: an update field explicitly set to `undefined` in a `Partial` is not modelled; an absent field keeps the old value, and an optional field cannot be cleared.
- Messages.SortConversations: `Object.entries` enumeration order and the sort's tie order are not modelled. The result is specified as newest first and a permutation; the order among conversations with equal latest timestamps is left open. Keys that clash with `Object.prototype` names are not modelled.
- Messages.SelectedMessages: the source sorts the group array that `conversations` holds in place. The model sorts a copy, so the aliasing, which reorders the stored group, is not captured. Equal timestamps may end in any order.
- Messages.MarkOpenedRead: the effect's dependency list and how often React re-runs it are not modelled; one run is.
- IncidentReports.ApplyEdit: an `onChange` for a field name the form does not have, which would add a stray key, is not modelled. `status` is taken from its select box, so it is always one of the two report statuses.
- The browser's `required` form validation before submit is not modelled; an empty field is submitted as typed.
- The guides' `steps`, `icon` and `estimatedTime` fields, and all rendering of the guide pages, are not modelled. Only the fields the filter, the related lookup and the counts read are kept.
- The titles, descriptions and symptoms of the six guides are kept word for word in Troubleshooting.PageWords. The lemmas about the list are stated for any such texts, so they hold for the page's texts in particular; only the ids, categories, video links and related ids are fixed in the statements.
- The guide list in src/contexts/DataContext.tsx:24-118 is not modelled. No view in this model reads it; the troubleshooting page uses its own list.
- The `selectedRequest` detail state of the "view requests" page and its status icons are rendering. Only its labels are modelled.
- The data-entry and create-request forms (src/components/admin/DataEntry.tsx, src/components/user/CreateRequest.tsx) are not modelled. Nor is the display number computed from the clock at src/components/user/CreateRequest.tsx:22.
- The `Clock` icon at src/components/user/Troubleshooting.tsx:566 is used without an import (lines 2-19 do not import it). Type-checked with `tsc`, the app does not build. Built by a bundler that strips types without type-checking, the module loads, but rendering the guide list throws `ReferenceError: Clock is not defined`. The list is the page's first view (`selectedGuide` starts as `null`, line 327), so the search results, the guide cards, the preview toggle and the "View Guide" button (line 592), the only way to reach a guide's page, never appear. The Troubleshooting lemmas describe the page as it would run with the import added; the failure itself is not modelled.
- Layout, App routing, JSX and styling are not modelled.

## Findings

| source | as written | input that shows it | evidently intended | confidence | as-written member | corrected member |
|---|---|---|---|---|---|---|
| src/components/user/ViewRequests.tsx:46 | the rejected card counts tickets whose status is `'rejected'`, but the store stores a rejection as `'disapproved'` (src/contexts/DataContext.tsx:247); the `'rejected'` filter option at line 198 has the same mismatch | one ticket of the signed-in user, rejected through `updateRequestStatus(id, 'rejected')`: the rejected card shows 0 and the filter lists nothing | count and list the tickets stored as `'disapproved'` | not executed | ViewRequests.RejectionNotCounted | ViewRequests.RejectionCountedWhenCorrected |
| src/components/user/ViewRequests.tsx:24 | `getStatusColor` gives red to `'rejected'`, which no stored ticket carries, so a disapproved ticket is drawn gray | any ticket with status `disapproved` | red for `'disapproved'` | not executed | ViewRequests.StoredStatusNeverRed | ViewRequests.CorrectedColourShowsRejection |
| src/components/admin/IncidentReports.tsx:125 | the badge is yellow only for `'pending troubleshooting'`, which is not a report status | any report with status `pending`: its badge is green, like a completed one | yellow for `'pending'`, as the pending card at line 83 counts it | not executed | IncidentReports.BadgeNeverYellow | IncidentReports.PendingBadgeIsPending |
