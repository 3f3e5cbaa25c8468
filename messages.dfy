/** The messaging view: the messages a user can see, grouped into conversations keyed
    by the other party, conversations newest first, the open conversation oldest
    first, unread badges, sending, and the effect that marks an opened conversation
    read. */
module Messages {
  import opened Types
  import opened Text
  import Seqs
  import opened Store

  // ---------------------------------------------------------------- the user's messages

  /** `msg.senderId === user.id || msg.receiverId === user.id` */
  predicate Involves(m: Message, userId: string) {
    m.senderId == userId || m.receiverId == userId
  }

  function Involving(userId: string): Message -> bool {
    m => Involves(m, userId)
  }

  /** `userMessages`: the store's messages the user sent or received, in store order. */
  function UserMessages(ms: seq<Message>, userId: string): (r: seq<Message>)
    ensures forall m :: m in r <==> m in ms && Involves(m, userId)
  {
    Seqs.Filter(ms, Involving(userId))
  }

  /** A message appended to the store shows up last in the user's list when it involves
      the user, and not at all otherwise; earlier entries keep their places. */
  lemma UserMessagesAppend(ms: seq<Message>, m: Message, userId: string)
    ensures UserMessages(ms + [m], userId) ==
      UserMessages(ms, userId) + (if Involves(m, userId) then [m] else [])
  {
    Seqs.FilterAppend(ms, [m], Involving(userId));
  }

  // ---------------------------------------------------------------- conversations

  /** The conversation key of a message: the receiver when the user sent it, the sender
      otherwise. */
  function OtherParty(m: Message, userId: string): string {
    if m.senderId == userId then m.receiverId else m.senderId
  }

  function WithParty(userId: string, key: string): Message -> bool {
    m => OtherParty(m, userId) == key
  }

  /** The messages of the conversation with `key`, in the order of `um`. */
  function Conversation(um: seq<Message>, userId: string, key: string): (r: seq<Message>)
    ensures forall m :: m in r <==> m in um && OtherParty(m, userId) == key
  {
    Seqs.Filter(um, WithParty(userId, key))
  }

  /** Every message lies in the conversation of its own key and in no other. */
  lemma ConversationsPartition(um: seq<Message>, userId: string, m: Message, key: string)
    requires m in um
    ensures m in Conversation(um, userId, key) <==> key == OtherParty(m, userId)
  {
  }

  /** `conv` maps each other party of `s` to that party's messages, and holds no
      other key. */
  ghost predicate Grouped(conv: map<string, seq<Message>>, s: seq<Message>, userId: string) {
    forall k :: (k in conv <==> Conversation(s, userId, k) != []) &&
                (k in conv ==> conv[k] == Conversation(s, userId, k))
  }

  /** The `reduce` that builds `conversations`: one key per other party that occurs,
      and under each key that party's messages in the order of `um`. */
  method GroupConversations(um: seq<Message>, userId: string) returns (conv: map<string, seq<Message>>)
    ensures forall k :: k in conv <==> exists m :: m in um && OtherParty(m, userId) == k
    ensures forall k :: k in conv ==> conv[k] == Conversation(um, userId, k) && conv[k] != []
  {
    conv := map[];
    var i := 0;
    while i < |um|
      invariant 0 <= i <= |um|
      invariant Grouped(conv, um[..i], userId)
    {
      var m := um[i];
      var other := OtherParty(m, userId);
      var prev := if other in conv then conv[other] else [];
      GroupStep(conv, um, userId, i);
      conv := conv[other := prev + [m]];
      i := i + 1;
    }
    assert um[..i] == um;
    GroupedKeys(conv, um, userId);
  }

  /** Pushing the next message onto its party's list keeps the grouping. */
  lemma GroupStep(conv: map<string, seq<Message>>, um: seq<Message>, userId: string, i: nat)
    requires i < |um| && Grouped(conv, um[..i], userId)
    ensures var other := OtherParty(um[i], userId);
      var prev := if other in conv then conv[other] else [];
      Grouped(conv[other := prev + [um[i]]], um[..i + 1], userId)
  {
    var other := OtherParty(um[i], userId);
    var prev := if other in conv then conv[other] else [];
    var conv' := conv[other := prev + [um[i]]];
    forall k ensures (k in conv' <==> Conversation(um[..i + 1], userId, k) != []) &&
                     (k in conv' ==> conv'[k] == Conversation(um[..i + 1], userId, k)) {
      ConversationStepAt(um, userId, i, k);
      if k == other {
        assert prev == Conversation(um[..i], userId, k);
      }
    }
  }

  /** Extending the prefix by one message extends the conversation with `k` exactly
      when the message belongs to it. */
  lemma ConversationStepAt(um: seq<Message>, userId: string, i: nat, k: string)
    requires i < |um|
    ensures Conversation(um[..i + 1], userId, k) ==
              (if OtherParty(um[i], userId) == k then Conversation(um[..i], userId, k) + [um[i]]
               else Conversation(um[..i], userId, k))
  {
    assert um[..i + 1] == um[..i] + [um[i]];
    Seqs.FilterAppend(um[..i], [um[i]], WithParty(userId, k));
    assert Seqs.Filter([um[i]], WithParty(userId, k)) == if OtherParty(um[i], userId) == k then [um[i]] else [];
    assert Conversation(um[..i], userId, k) + [] == Conversation(um[..i], userId, k);
  }

  /** A grouping's keys are exactly the other parties that occur. */
  lemma GroupedKeys(conv: map<string, seq<Message>>, um: seq<Message>, userId: string)
    requires Grouped(conv, um, userId)
    ensures forall k :: k in conv <==> exists m :: m in um && OtherParty(m, userId) == k
    ensures forall k :: k in conv ==> conv[k] == Conversation(um, userId, k) && conv[k] != []
  {
    forall k ensures k in conv <==> exists m :: m in um && OtherParty(m, userId) == k {
      var c := Conversation(um, userId, k);
      if c != [] {
        assert c[0] in c;
      }
    }
  }

  // ---------------------------------------------------------------- ordering

  /** `Math.max(...msgs.map(m => m.timestamp))` for a non-empty conversation. */
  function Latest(g: seq<Message>): int
    requires g != []
  {
    if |g| == 1 then g[0].timestamp
    else if g[0].timestamp >= Latest(g[1..]) then g[0].timestamp else Latest(g[1..])
  }

  /** `Latest` is the largest timestamp of the conversation and belongs to one of its
      messages. */
  lemma {:induction false} LatestIsMax(g: seq<Message>)
    requires g != []
    ensures forall i :: 0 <= i < |g| ==> g[i].timestamp <= Latest(g)
    ensures exists i :: 0 <= i < |g| && g[i].timestamp == Latest(g)
  {
    if |g| == 1 {
      assert g[0].timestamp == Latest(g);
    } else {
      LatestIsMax(g[1..]);
      assert forall i :: 1 <= i < |g| ==> g[i] == g[1..][i - 1];
      if g[0].timestamp < Latest(g[1..]) {
        var j :| 0 <= j < |g[1..]| && g[1..][j].timestamp == Latest(g[1..]);
        assert g[j + 1].timestamp == Latest(g);
      } else {
        assert g[0].timestamp == Latest(g);
      }
    }
  }

  type Entry = (string, seq<Message>)

  predicate NonEmptyGroups(es: seq<Entry>) {
    forall i :: 0 <= i < |es| ==> es[i].1 != []
  }

  /** Conversations ordered by their latest message, newest first. */
  predicate NewestFirst(es: seq<Entry>) {
    NonEmptyGroups(es) && forall i, j :: 0 <= i < j < |es| ==> Latest(es[j].1) <= Latest(es[i].1)
  }

  /** Inserts an entry into a newest-first list behind every entry at least as new. */
  function InsertNewest(es: seq<Entry>, e: Entry): (r: seq<Entry>)
    requires NewestFirst(es) && e.1 != []
    ensures NewestFirst(r)
    ensures |r| == |es| + 1
    ensures forall x :: x in r <==> x in es || x == e
  {
    if es == [] then [e]
    else if Latest(es[0].1) < Latest(e.1) then [e] + es
    else
      var rest := InsertNewest(es[1..], e);
      assert es == [es[0]] + es[1..];
      assert forall j :: 0 <= j < |rest| ==> Latest(rest[j].1) <= Latest(es[0].1) && rest[j].1 != [] by {
        forall j | 0 <= j < |rest| ensures Latest(rest[j].1) <= Latest(es[0].1) && rest[j].1 != [] {
          assert rest[j] in rest;
          if rest[j] != e {
            var t :| 0 <= t < |es[1..]| && es[1..][t] == rest[j];
            assert es[t + 1] == rest[j];
          }
        }
      }
      [es[0]] + rest
  }

  /** `sortedConversations`: every conversation once, newest first. */
  method SortConversations(conv: map<string, seq<Message>>) returns (es: seq<Entry>)
    requires forall k :: k in conv ==> conv[k] != []
    ensures NewestFirst(es)
    ensures |es| == |conv|
    ensures forall k :: k in conv ==> (k, conv[k]) in es
    ensures forall e :: e in es ==> e.0 in conv && e.1 == conv[e.0]
  {
    es := [];
    var rest := conv.Keys;
    while rest != {}
      invariant rest <= conv.Keys
      invariant NewestFirst(es)
      invariant |es| + |rest| == |conv.Keys|
      invariant forall k :: k in conv && k !in rest ==> (k, conv[k]) in es
      invariant forall e :: e in es ==> e.0 in conv && e.0 !in rest && e.1 == conv[e.0]
      decreases |rest|
    {
      var k :| k in rest;
      es := InsertNewest(es, (k, conv[k]));
      rest := rest - {k};
    }
  }

  // ---------------------------------------------------------------- the open conversation

  /** Timestamps never decrease along the list. */
  predicate OldestFirst(s: seq<Message>) {
    forall i, j :: 0 <= i < j < |s| ==> s[i].timestamp <= s[j].timestamp
  }

  /** Exchanges two neighbouring messages. */
  method SwapAdjacent(a: array<Message>, j: int)
    requires 0 < j < a.Length
    modifies a
    ensures a[..] == old(a[..])[j - 1 := old(a[j])][j := old(a[j - 1])]
    ensures multiset(a[..]) == multiset(old(a[..]))
  {
    a[j - 1], a[j] := a[j], a[j - 1];
  }

  /** The in-place `sort((a, b) => a.timestamp - b.timestamp)` of a conversation. */
  method SortByTimestamp(a: array<Message>)
    modifies a
    ensures OldestFirst(a[..])
    ensures multiset(a[..]) == multiset(old(a[..]))
  {
    var i := 0;
    while i < a.Length
      invariant 0 <= i <= a.Length
      invariant forall p, q :: 0 <= p < q < i ==> a[p].timestamp <= a[q].timestamp
      invariant multiset(a[..]) == multiset(old(a[..]))
    {
      var j := i;
      while j > 0 && a[j - 1].timestamp > a[j].timestamp
        invariant 0 <= j <= i
        invariant forall p, q :: 0 <= p < q <= i && q != j ==> a[p].timestamp <= a[q].timestamp
        invariant 0 < j < i ==> a[j - 1].timestamp <= a[j + 1].timestamp
        invariant multiset(a[..]) == multiset(old(a[..]))
      {
        SwapAdjacent(a, j);
        j := j - 1;
      }
      i := i + 1;
    }
  }

  /** JavaScript truthiness of `selectedConversation`: `null` and `''` are both false. */
  predicate Truthy(sel: Option<string>) {
    sel.Some? && sel.value != ""
  }

  /** `selectedMessages`: the selected conversation sorted oldest first; nothing when no
      conversation is selected or the selected key has no conversation. */
  method SelectedMessages(conv: map<string, seq<Message>>, sel: Option<string>) returns (r: seq<Message>)
    ensures OldestFirst(r)
    ensures !Truthy(sel) || sel.value !in conv ==> r == []
    ensures Truthy(sel) && sel.value in conv ==> multiset(r) == multiset(conv[sel.value])
  {
    if !Truthy(sel) {
      return [];
    }
    var g := if sel.value in conv then conv[sel.value] else [];
    var a := new Message[|g|](i requires 0 <= i < |g| => g[i]);
    assert a[..] == g;
    SortByTimestamp(a);
    r := a[..];
  }

  // ---------------------------------------------------------------- unread badges

  /** Addressed to the user and not yet read. */
  predicate UnreadBy(m: Message, userId: string) {
    m.receiverId == userId && !m.read
  }

  function UnreadFor(userId: string): Message -> bool {
    m => UnreadBy(m, userId)
  }

  /** The unread badge of a conversation: zero exactly when none of its messages is
      addressed to the user and unread. */
  function UnreadCount(g: seq<Message>, userId: string): (n: nat)
    ensures n <= |g|
    ensures n == 0 <==> forall m :: m in g ==> !UnreadBy(m, userId)
  {
    var u := Seqs.Filter(g, UnreadFor(userId));
    assert u != [] ==> u[0] in u;
    |u|
  }

  /** The badge of no messages is zero, and a message added to a conversation raises
      it by one exactly when the message is addressed to the user and unread. Together
      these fix the badge as the number of such messages. */
  lemma UnreadCountAfterAdd(g: seq<Message>, m: Message, userId: string)
    ensures UnreadCount([], userId) == 0
    ensures UnreadCount(g + [m], userId) == UnreadCount(g, userId) + (if UnreadBy(m, userId) then 1 else 0)
  {
    Seqs.FilterAppend(g, [m], UnreadFor(userId));
  }

  /** `markMessageAsRead` applied for every id in `ids`. */
  function MarkAllRead(ms: seq<Message>, ids: set<string>): (r: seq<Message>)
    ensures |r| == |ms|
    ensures forall i :: 0 <= i < |ms| ==> r[i] == if ms[i].id in ids then ms[i].(read := true) else ms[i]
  {
    if ms == [] then [] else [if ms[0].id in ids then ms[0].(read := true) else ms[0]] + MarkAllRead(ms[1..], ids)
  }

  function IdsOf(s: seq<Message>): set<string> {
    set m | m in s :: m.id
  }

  /** The ids of the messages of `g` that are addressed to the user and unread. */
  function UnreadIds(g: seq<Message>, userId: string): set<string> {
    IdsOf(Seqs.Filter(g, UnreadFor(userId)))
  }

  /** Reordering a conversation, as the sort does, leaves its unread ids as they were. */
  lemma SameUnreadIds(a: seq<Message>, b: seq<Message>, userId: string)
    requires multiset(a) == multiset(b)
    ensures UnreadIds(a, userId) == UnreadIds(b, userId)
  {
    forall m ensures m in a <==> m in b {
      assert m in a <==> m in multiset(a);
      assert m in b <==> m in multiset(b);
    }
  }

  /** An unread message of the opened conversation is among those the effect marks. */
  lemma ShownUnreadIsMarked(ms: seq<Message>, userId: string, key: string, shown: seq<Message>, i: int)
    requires multiset(shown) == multiset(Conversation(UserMessages(ms, userId), userId, key))
    requires 0 <= i < |ms|
    ensures UnreadBy(ms[i], userId) && OtherParty(ms[i], userId) == key ==>
      ms[i].id in IdsOf(Seqs.Filter(shown, UnreadFor(userId)))
  {
    if UnreadBy(ms[i], userId) && OtherParty(ms[i], userId) == key {
      assert ms[i] in ms;
      assert ms[i] in Conversation(UserMessages(ms, userId), userId, key);
      assert ms[i] in multiset(shown);
      assert ms[i] in Seqs.Filter(shown, UnreadFor(userId));
    }
  }

  /** After the effect has marked the unread messages of an opened conversation, that
      conversation, recomputed from the new store, has no unread message left. */
  lemma {:induction false} OpenedConversationIsRead(ms: seq<Message>, userId: string, key: string, shown: seq<Message>)
    requires multiset(shown) == multiset(Conversation(UserMessages(ms, userId), userId, key))
    ensures UnreadCount(Conversation(UserMessages(MarkAllRead(ms, IdsOf(Seqs.Filter(shown, UnreadFor(userId)))), userId), userId, key), userId) == 0
  {
    var ids := IdsOf(Seqs.Filter(shown, UnreadFor(userId)));
    var after := MarkAllRead(ms, ids);
    var g := Conversation(UserMessages(after, userId), userId, key);
    forall m | m in g ensures !UnreadBy(m, userId) {
      var i :| 0 <= i < |after| && after[i] == m;
      ShownUnreadIsMarked(ms, userId, key, shown, i);
    }
  }

  // ---------------------------------------------------------------- sending

  /** The message `handleSendMessage` hands to the store, if any: none when the trimmed
      text is empty or no conversation is selected; otherwise the trimmed text from the
      user to the selected party. */
  function Outgoing(user: User, text: string, sel: Option<string>): (r: Option<MessageDraft>)
    ensures r.None? <==> AllSpace(text) || !Truthy(sel)
    ensures r.Some? ==> r.value.senderId == user.id && r.value.receiverId == sel.value
    ensures r.Some? ==> r.value.content != [] && r.value.content == Trim(text)
  {
    if Trim(text) == [] || !Truthy(sel) then None
    else Some(MessageDraft(user.id, user.name, sel.value, Trim(text), None))
  }

  /** `handleStartConversation`: an admin opens the conversation with `'2'`, any other
      role the one with `'1'`. */
  function StartTarget(role: Role): (k: string)
    ensures k == "2" <==> role == Admin
    ensures k == "1" <==> role != Admin
  {
    if role == Admin then "2" else "1"
  }

  /** The view's own state: the text being typed and the open conversation. */
  class MessagesView {
    var newMessage: string
    var selectedConversation: Option<string>

    constructor ()
      ensures newMessage == "" && selectedConversation == None
    {
      newMessage, selectedConversation := "", None;
    }

    method Type(text: string)
      modifies this
      ensures newMessage == text && selectedConversation == old(selectedConversation)
    {
      newMessage := text;
    }

    /** Clicking a conversation in the list. */
    method Select(key: string)
      modifies this
      ensures selectedConversation == Some(key) && newMessage == old(newMessage)
    {
      selectedConversation := Some(key);
    }

    method HandleStartConversation(user: User)
      modifies this
      ensures selectedConversation == Some(StartTarget(user.role)) && newMessage == old(newMessage)
    {
      selectedConversation := Some(StartTarget(user.role));
    }

    /** `handleSendMessage`: sends the outgoing message, if any, and then clears the
        input; otherwise changes nothing. */
    method HandleSendMessage(store: DataStore, user: User, now: int, newId: string)
      modifies this, store
      ensures var out := Outgoing(user, old(newMessage), old(selectedConversation));
        if out.None? then
          store.messages == old(store.messages) && newMessage == old(newMessage)
        else
          store.messages == old(store.messages) + [Message(newId, user.id, user.name,
            out.value.receiverId, out.value.content, now, false)] && newMessage == ""
      ensures selectedConversation == old(selectedConversation)
      ensures store.tickets == old(store.tickets) && store.inventory == old(store.inventory)
      ensures store.incidents == old(store.incidents)
    {
      var out := Outgoing(user, newMessage, selectedConversation);
      if out.None? {
        return;
      }
      store.AddMessage(out.value, now, newId);
      newMessage := "";
    }

    /** The effect that runs while a conversation is open: every message of it that is
        addressed to the user and unread is marked read, one `markMessageAsRead` call
        per message; afterwards the conversation's badge is zero. */
    method MarkOpenedRead(store: DataStore, user: User)
      modifies store
      ensures store.tickets == old(store.tickets) && store.inventory == old(store.inventory)
      ensures store.incidents == old(store.incidents)
      ensures !Truthy(selectedConversation) ==> store.messages == old(store.messages)
      ensures Truthy(selectedConversation) ==>
        store.messages == MarkAllRead(old(store.messages), UnreadIds(
          Conversation(UserMessages(old(store.messages), user.id), user.id, selectedConversation.value), user.id))
      ensures Truthy(selectedConversation) ==>
        UnreadCount(Conversation(UserMessages(store.messages, user.id), user.id, selectedConversation.value), user.id) == 0
    {
      if !Truthy(selectedConversation) {
        return;
      }
      var key := selectedConversation.value;
      var um := UserMessages(store.messages, user.id);
      var conv := GroupConversations(um, user.id);
      var shown := SelectedMessages(conv, selectedConversation);
      if key !in conv {
        Seqs.FilterKeepsNone(um, WithParty(user.id, key));
      }
      ghost var ms0 := store.messages;
      MarkEachRead(store, Seqs.Filter(shown, UnreadFor(user.id)));
      OpenedConversationIsRead(ms0, user.id, key, shown);
      SameUnreadIds(shown, Conversation(um, user.id, key), user.id);
    }
  }

  /** The `forEach(msg => markMessageAsRead(msg.id))` loop. */
  method MarkEachRead(store: DataStore, pending: seq<Message>)
    modifies store
    ensures store.messages == MarkAllRead(old(store.messages), IdsOf(pending))
    ensures store.tickets == old(store.tickets) && store.inventory == old(store.inventory)
    ensures store.incidents == old(store.incidents)
  {
    var i := 0;
    while i < |pending|
      invariant 0 <= i <= |pending|
      invariant store.messages == MarkAllRead(old(store.messages), IdsOf(pending[..i]))
      invariant store.tickets == old(store.tickets) && store.inventory == old(store.inventory)
      invariant store.incidents == old(store.incidents)
    {
      store.MarkMessageAsRead(pending[i].id);
      assert IdsOf(pending[..i + 1]) == IdsOf(pending[..i]) + {pending[i].id} by {
        assert pending[..i + 1] == pending[..i] + [pending[i]];
      }
      i := i + 1;
    }
    assert pending[..i] == pending;
  }
}
