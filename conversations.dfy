/**
 * The conversation store of the backend: conversations of a user with the
 * voice assistant, and their messages numbered 1, 2, 3, ... within each
 * conversation. The two tables are the fields of `ConversationService`;
 * its methods insert, update and delete rows the way the service's queries
 * do, and keep the numbering and the per-conversation message totals.
 *
 * Datetimes are microseconds; database write failures are not modelled.
 */
module Conversations {
  import opened Common
  import opened Sorting

  datatype Role = UserRole | AssistantRole | SystemRole

  datatype Conversation = Conversation(
    id: string,
    userId: string,
    sessionId: Option<string>,
    title: string,
    startedAt: int,
    endedAt: Option<int>,
    isActive: bool,
    totalMessages: int,
    summary: Option<string>,
    topics: seq<string>)

  datatype ConversationMessage = ConversationMessage(
    id: string,
    conversationId: string,
    role: Role,
    content: string,
    timestamp: int,
    messageOrder: int,
    hasAudio: bool,
    audioFilePath: Option<string>)

  function InConversation(conversationId: string): ConversationMessage -> bool {
    (m: ConversationMessage) => m.conversationId == conversationId
  }

  function NotInConversation(conversationId: string): ConversationMessage -> bool {
    (m: ConversationMessage) => m.conversationId != conversationId
  }

  /** The messages of one conversation, in insertion order. */
  function MessagesOf(ms: seq<ConversationMessage>, conversationId: string): seq<ConversationMessage> {
    Filter(ms, InConversation(conversationId))
  }

  /** Within every conversation the messages carry the orders 1, 2, ..., n in insertion order. */
  ghost predicate Numbered(ms: seq<ConversationMessage>) {
    forall cid, j :: 0 <= j < |MessagesOf(ms, cid)| ==> MessagesOf(ms, cid)[j].messageOrder == j + 1
  }

  lemma MessagesOfAppend(ms: seq<ConversationMessage>, m: ConversationMessage, cid: string)
    ensures MessagesOf(ms + [m], cid) == MessagesOf(ms, cid) + (if m.conversationId == cid then [m] else [])
  {
    FilterAppend(ms, [m], InConversation(cid));
  }

  lemma {:induction false} MessagesOfRemoved(ms: seq<ConversationMessage>, removed: string, cid: string)
    ensures MessagesOf(Filter(ms, NotInConversation(removed)), cid) == if cid == removed then [] else MessagesOf(ms, cid)
  {
    if ms != [] {
      MessagesOfRemoved(ms[1..], removed, cid);
      var head := if ms[0].conversationId != removed then [ms[0]] else [];
      var rest := Filter(ms[1..], NotInConversation(removed));
      assert Filter(ms, NotInConversation(removed)) == head + rest;
      FilterAppend(head, rest, InConversation(cid));
      assert MessagesOf(ms, cid) == (if ms[0].conversationId == cid then [ms[0]] else []) + MessagesOf(ms[1..], cid);
    }
  }

  /** Removing a conversation and its messages keeps the other conversations' totals right and the ids unique. */
  lemma RemovalKeepsTotals(convs: seq<Conversation>, ms: seq<ConversationMessage>, i: nat)
    requires i < |convs| && TotalsMatch(convs, ms) && UniqueIds(convs)
    ensures var rest := convs[..i] + convs[i + 1..];
            TotalsMatch(rest, Filter(ms, NotInConversation(convs[i].id))) && UniqueIds(rest)
  {
    var rest := convs[..i] + convs[i + 1..];
    var kept := Filter(ms, NotInConversation(convs[i].id));
    forall k | 0 <= k < |rest| ensures rest[k].totalMessages == |MessagesOf(kept, rest[k].id)| {
      var j := if k < i then k else k + 1;
      assert rest[k] == convs[j];
      MessagesOfRemoved(ms, convs[i].id, rest[k].id);
    }
    forall a, b | 0 <= a < b < |rest| ensures rest[a].id != rest[b].id {
      var ja := if a < i then a else a + 1;
      var jb := if b < i then b else b + 1;
      assert rest[a] == convs[ja] && rest[b] == convs[jb];
    }
  }

  /** The numbering survives removing every message of one conversation. */
  lemma NumberedRemove(ms: seq<ConversationMessage>, removed: string)
    requires Numbered(ms)
    ensures Numbered(Filter(ms, NotInConversation(removed)))
  {
    var kept := Filter(ms, NotInConversation(removed));
    forall cid, j | 0 <= j < |MessagesOf(kept, cid)| ensures MessagesOf(kept, cid)[j].messageOrder == j + 1 {
      MessagesOfRemoved(ms, removed, cid);
    }
  }

  /** Appending a message numbered one past its conversation's count keeps the numbering. */
  lemma NumberedAppend(ms: seq<ConversationMessage>, m: ConversationMessage)
    requires Numbered(ms)
    requires m.messageOrder == |MessagesOf(ms, m.conversationId)| + 1
    ensures Numbered(ms + [m])
  {
    forall cid, j | 0 <= j < |MessagesOf(ms + [m], cid)| ensures MessagesOf(ms + [m], cid)[j].messageOrder == j + 1 {
      MessagesOfAppend(ms, m, cid);
    }
  }

  lemma NumberedPrefix(ms: seq<ConversationMessage>)
    requires ms != [] && Numbered(ms)
    ensures Numbered(ms[..|ms| - 1])
  {
    var init := ms[..|ms| - 1];
    assert init + [ms[|ms| - 1]] == ms;
    forall cid, j | 0 <= j < |MessagesOf(init, cid)| ensures MessagesOf(init, cid)[j].messageOrder == j + 1 {
      MessagesOfAppend(init, ms[|ms| - 1], cid);
      assert MessagesOf(init, cid)[j] == MessagesOf(ms, cid)[j];
    }
  }

  /**
   * The order of the conversation's last message, as `ORDER BY message_order
   * DESC` and `.first()` find it: the largest order among its messages, or
   * `None` when it has none.
   */
  function LastOrder(ms: seq<ConversationMessage>, cid: string): (r: Option<int>)
    ensures r.None? <==> Count(ms, InConversation(cid)) == 0
    ensures r.Some? ==> forall k :: 0 <= k < |ms| && ms[k].conversationId == cid ==> ms[k].messageOrder <= r.value
  {
    if ms == [] then None
    else
      var m := ms[|ms| - 1];
      var rest := LastOrder(ms[..|ms| - 1], cid);
      CountAppend(ms[..|ms| - 1], [m], InConversation(cid));
      assert ms[..|ms| - 1] + [m] == ms;
      if m.conversationId != cid then rest
      else if rest.Some? && rest.value >= m.messageOrder then rest
      else Some(m.messageOrder)
  }

  /** `add_message`: one past the last order, or 1 for the first message. */
  function NextOrder(ms: seq<ConversationMessage>, cid: string): int {
    match LastOrder(ms, cid)
    case Some(o) => o + 1
    case None => 1
  }

  /** In a numbered table the next order is the conversation's message count plus one. */
  lemma {:induction false} NextOrderCounts(ms: seq<ConversationMessage>, cid: string)
    requires Numbered(ms)
    ensures NextOrder(ms, cid) == |MessagesOf(ms, cid)| + 1
  {
    if ms != [] {
      var init := ms[..|ms| - 1];
      var m := ms[|ms| - 1];
      NumberedPrefix(ms);
      NextOrderCounts(init, cid);
      assert init + [m] == ms;
      MessagesOfAppend(init, m, cid);
      FilterLength(init, InConversation(cid));
      if m.conversationId == cid {
        assert MessagesOf(ms, cid)[|MessagesOf(init, cid)|] == m;
      }
    }
  }

  /** Total message counts recorded on the conversations agree with their messages. */
  ghost predicate TotalsMatch(convs: seq<Conversation>, ms: seq<ConversationMessage>) {
    forall i :: 0 <= i < |convs| ==> convs[i].totalMessages == |MessagesOf(ms, convs[i].id)|
  }

  predicate UniqueIds(convs: seq<Conversation>) {
    forall i, j :: 0 <= i < j < |convs| ==> convs[i].id != convs[j].id
  }

  /** The first position of the conversation with id `id`, or -1. */
  function IndexOfConversation(convs: seq<Conversation>, id: string): (i: int)
    ensures -1 <= i < |convs|
    ensures i >= 0 ==> convs[i].id == id
    ensures i == -1 ==> forall k :: 0 <= k < |convs| ==> convs[k].id != id
  {
    if convs == [] then -1
    else if convs[0].id == id then 0
    else var j := IndexOfConversation(convs[1..], id); if j == -1 then -1 else j + 1
  }

  // ---------------------------------------------------------------------------
  // Queries
  // ---------------------------------------------------------------------------

  function NewestStartedFirst(c: Conversation): real {
    -(c.startedAt as real)
  }

  function ListedFor(userId: string, includeInactive: bool): Conversation -> bool {
    (c: Conversation) => c.userId == userId && (includeInactive || c.isActive)
  }

  /** `get_user_conversations`: the user's (active, unless asked otherwise) conversations, latest started first, one page. */
  function UserConversations(convs: seq<Conversation>, userId: string, limit: nat, offset: nat,
                             includeInactive: bool): (r: seq<Conversation>)
    ensures |r| <= limit
  {
    Page(SortBy(Filter(convs, ListedFor(userId, includeInactive)), NewestStartedFirst), offset, limit)
  }

  /** Every listed conversation is the user's and active unless inactive ones are asked for; latest started first. */
  lemma UserConversationsSound(convs: seq<Conversation>, userId: string, limit: nat, offset: nat, includeInactive: bool)
    ensures var r := UserConversations(convs, userId, limit, offset, includeInactive);
            (forall i :: 0 <= i < |r| ==> r[i] in convs && r[i].userId == userId && (includeInactive || r[i].isActive)) &&
            (forall i, j :: 0 <= i < j < |r| ==> r[i].startedAt >= r[j].startedAt)
  {
    var listed := Filter(convs, ListedFor(userId, includeInactive));
    var sorted := SortBy(listed, NewestStartedFirst);
    var r := Page(sorted, offset, limit);
    PageSorted(sorted, NewestStartedFirst, offset, limit);
    forall i | 0 <= i < |r| ensures r[i] in convs && r[i].userId == userId && (includeInactive || r[i].isActive) {
      assert r[i] in sorted;
      SortByMembers(listed, NewestStartedFirst, r[i]);
    }
    forall i, j | 0 <= i < j < |r| ensures r[i].startedAt >= r[j].startedAt {
      assert NewestStartedFirst(r[i]) <= NewestStartedFirst(r[j]);
    }
  }

  /** Nothing is lost: when the user's listed conversations fit in the first page, each of them is on it. */
  lemma UserConversationsComplete(convs: seq<Conversation>, userId: string, limit: nat, includeInactive: bool,
                                  c: Conversation)
    requires c in convs && c.userId == userId && (includeInactive || c.isActive)
    requires Count(convs, ListedFor(userId, includeInactive)) <= limit
    ensures c in UserConversations(convs, userId, limit, 0, includeInactive)
  {
    var listed := Filter(convs, ListedFor(userId, includeInactive));
    var sorted := SortBy(listed, NewestStartedFirst);
    FilterLength(convs, ListedFor(userId, includeInactive));
    assert Page(sorted, 0, limit) == sorted[0..|sorted|] == sorted;
    SortByMembers(listed, NewestStartedFirst, c);
  }

  /** Still going: the user's, active, not ended, and of the session if one is named. */
  predicate IsOpen(c: Conversation, userId: string, sessionId: Option<string>) {
    c.userId == userId && c.isActive && c.endedAt.None? && (!Truthy(sessionId) || c.sessionId == sessionId)
  }

  function Open(userId: string, sessionId: Option<string>): Conversation -> bool {
    (c: Conversation) => IsOpen(c, userId, sessionId)
  }

  /** `get_active_conversation`: the open conversation started last, if any. */
  function ActiveConversation(convs: seq<Conversation>, userId: string, sessionId: Option<string>): Option<Conversation> {
    var sorted := SortBy(Filter(convs, Open(userId, sessionId)), NewestStartedFirst);
    if sorted == [] then None else Some(sorted[0])
  }

  /**
   * The active conversation is an open one (so never an ended one), started no
   * earlier than any other open one; there is none exactly when no
   * conversation is open.
   */
  lemma ActiveConversationSpec(convs: seq<Conversation>, userId: string, sessionId: Option<string>)
    ensures var r := ActiveConversation(convs, userId, sessionId);
            (r.Some? ==> r.value in convs && IsOpen(r.value, userId, sessionId) &&
                         forall c :: c in convs && IsOpen(c, userId, sessionId) ==> c.startedAt <= r.value.startedAt) &&
            (r.None? <==> forall c :: c in convs ==> !IsOpen(c, userId, sessionId))
  {
    var open := Filter(convs, Open(userId, sessionId));
    var sorted := SortBy(open, NewestStartedFirst);
    forall c | c in convs && IsOpen(c, userId, sessionId) ensures c in sorted {
      SortByMembers(open, NewestStartedFirst, c);
    }
    if sorted != [] {
      SortByMembers(open, NewestStartedFirst, sorted[0]);
      NewestFirstHead(sorted);
    }
  }

  /** The head of a list sorted newest first started no earlier than any of its elements. */
  lemma NewestFirstHead(sorted: seq<Conversation>)
    requires sorted != [] && SortedBy(sorted, NewestStartedFirst)
    ensures forall c :: c in sorted ==> c.startedAt <= sorted[0].startedAt
  {
    forall c | c in sorted ensures c.startedAt <= sorted[0].startedAt {
      var k :| 0 <= k < |sorted| && sorted[k] == c;
      assert NewestStartedFirst(sorted[0]) <= NewestStartedFirst(sorted[k]);
    }
  }

  function OrderKey(m: ConversationMessage): real {
    m.messageOrder as real
  }

  /** `get_conversation_messages`: the conversation's messages by ascending order; a page of them when a limit is given. */
  function ConversationMessages(ms: seq<ConversationMessage>, cid: string, limit: Option<nat>, offset: nat): seq<ConversationMessage> {
    var ordered := SortBy(MessagesOf(ms, cid), OrderKey);
    if limit.Some? && limit.value != 0 then Page(ordered, offset, limit.value) else ordered
  }

  /** Returned messages belong to the conversation and come in ascending order. */
  lemma ConversationMessagesSound(ms: seq<ConversationMessage>, cid: string, limit: Option<nat>, offset: nat)
    ensures var r := ConversationMessages(ms, cid, limit, offset);
            (forall i :: 0 <= i < |r| ==> r[i] in ms && r[i].conversationId == cid) &&
            (forall i, j :: 0 <= i < j < |r| ==> r[i].messageOrder <= r[j].messageOrder)
  {
    var own := MessagesOf(ms, cid);
    var ordered := SortBy(own, OrderKey);
    var r := ConversationMessages(ms, cid, limit, offset);
    if limit.Some? && limit.value != 0 {
      PageSorted(ordered, OrderKey, offset, limit.value);
    }
    forall i | 0 <= i < |r| ensures r[i] in ms && r[i].conversationId == cid {
      assert r[i] in ordered;
      SortByMembers(own, OrderKey, r[i]);
    }
    forall i, j | 0 <= i < j < |r| ensures r[i].messageOrder <= r[j].messageOrder {
      assert OrderKey(r[i]) <= OrderKey(r[j]);
    }
  }

  /** In a numbered table the unpaged messages are exactly the conversation's, in insertion order, numbered 1..n. */
  lemma ConversationMessagesNumbered(ms: seq<ConversationMessage>, cid: string)
    requires Numbered(ms)
    ensures ConversationMessages(ms, cid, None, 0) == MessagesOf(ms, cid)
    ensures forall j :: 0 <= j < |MessagesOf(ms, cid)| ==> MessagesOf(ms, cid)[j].messageOrder == j + 1
  {
    var own := MessagesOf(ms, cid);
    forall i, j | 0 <= i < j < |own| ensures OrderKey(own[i]) <= OrderKey(own[j]) {
      assert own[i].messageOrder == i + 1 && own[j].messageOrder == j + 1;
    }
    SortBySorted(own, OrderKey);
  }

  // ---------------------------------------------------------------------------
  // The service
  // ---------------------------------------------------------------------------

  /** The conversation and message tables. */
  class ConversationService {
    var conversations: seq<Conversation>
    var messages: seq<ConversationMessage>

    /** Messages numbered per conversation, totals matching, conversation ids unique. */
    ghost predicate Valid()
      reads this
    {
      Numbered(messages) && TotalsMatch(conversations, messages) && UniqueIds(conversations)
    }

    constructor ()
      ensures Valid() && conversations == [] && messages == []
    {
      conversations := [];
      messages := [];
    }

    /**
     * `create_conversation` under a fresh id: active, not ended, no messages,
     * titled "Conversation <date and minute>" unless a title is given.
     */
    method CreateConversation(id: string, userId: string, sessionId: Option<string>, title: Option<string>,
                              now: int, formatMinute: int -> string) returns (c: Conversation)
      requires Valid()
      requires forall k :: 0 <= k < |conversations| ==> conversations[k].id != id
      requires forall k :: 0 <= k < |messages| ==> messages[k].conversationId != id
      modifies this
      ensures Valid()
      ensures c == Conversation(id, userId, sessionId,
                                if Truthy(title) then title.value else "Conversation " + formatMinute(now),
                                now, None, true, 0, None, [])
      ensures conversations == old(conversations) + [c] && messages == old(messages)
    {
      c := Conversation(id, userId, sessionId,
                        if Truthy(title) then title.value else "Conversation " + formatMinute(now),
                        now, None, true, 0, None, []);
      assert MessagesOf(messages, id) == [] by {
        assert Count(messages, InConversation(id)) == 0;
        FilterLength(messages, InConversation(id));
      }
      conversations := conversations + [c];
    }

    /**
     * `add_message`: `None` and no change when the conversation does not
     * exist; otherwise the message is appended with the next order, and the
     * conversation's total becomes that order.
     */
    method AddMessage(conversationId: string, id: string, role: Role, content: string, hasAudio: bool,
                      audioFilePath: Option<string>, now: int) returns (r: Option<ConversationMessage>)
      requires Valid()
      modifies this
      ensures Valid()
      ensures var i := IndexOfConversation(old(conversations), conversationId);
              (i < 0 ==> r.None? && conversations == old(conversations) && messages == old(messages)) &&
              (i >= 0 ==> r.Some? &&
                          r.value == ConversationMessage(id, conversationId, role, content, now,
                                                         |MessagesOf(old(messages), conversationId)| + 1,
                                                         hasAudio, audioFilePath) &&
                          messages == old(messages) + [r.value] &&
                          conversations == old(conversations)[i := old(conversations)[i].(totalMessages := r.value.messageOrder)])
    {
      var i := IndexOfConversation(conversations, conversationId);
      if i < 0 {
        return None;
      }
      var nextOrder := match LastOrder(messages, conversationId) case Some(o) => o + 1 case None => 1;
      NextOrderCounts(messages, conversationId);
      var message := ConversationMessage(id, conversationId, role, content, now, nextOrder, hasAudio, audioFilePath);
      NumberedAppend(messages, message);
      ghost var oldMessages := messages;
      messages := messages + [message];
      conversations := conversations[i := conversations[i].(totalMessages := nextOrder)];
      forall k | 0 <= k < |conversations|
        ensures conversations[k].totalMessages == |MessagesOf(messages, conversations[k].id)|
      {
        MessagesOfAppend(oldMessages, message, conversations[k].id);
      }
      r := Some(message);
    }

    /**
     * `end_conversation`: false when the conversation does not exist;
     * otherwise it is ended now and made inactive, and the summary and topics
     * are replaced only by non-empty ones.
     */
    method EndConversation(conversationId: string, summary: Option<string>, topics: Option<seq<string>>, now: int)
      returns (ok: bool)
      requires Valid()
      modifies this
      ensures Valid()
      ensures messages == old(messages)
      ensures ok <==> IndexOfConversation(old(conversations), conversationId) >= 0
      ensures !ok ==> conversations == old(conversations)
      ensures ok ==> var i := IndexOfConversation(old(conversations), conversationId);
                     var c := old(conversations)[i];
                     conversations == old(conversations)[i := c.(endedAt := Some(now), isActive := false,
                                                                  summary := if Truthy(summary) then summary else c.summary,
                                                                  topics := if topics.Some? && topics.value != [] then topics.value else c.topics)]
    {
      var i := IndexOfConversation(conversations, conversationId);
      if i < 0 {
        return false;
      }
      var c := conversations[i];
      c := c.(endedAt := Some(now), isActive := false);
      if Truthy(summary) {
        c := c.(summary := summary);
      }
      if topics.Some? && topics.value != [] {
        c := c.(topics := topics.value);
      }
      conversations := conversations[i := c];
      ok := true;
    }

    /**
     * `delete_conversation`: false when the conversation does not exist;
     * otherwise it and all its messages are removed, and every other
     * conversation keeps exactly its messages.
     */
    method DeleteConversation(conversationId: string) returns (ok: bool)
      requires Valid()
      modifies this
      ensures Valid()
      ensures ok <==> IndexOfConversation(old(conversations), conversationId) >= 0
      ensures !ok ==> conversations == old(conversations) && messages == old(messages)
      ensures ok ==> var i := IndexOfConversation(old(conversations), conversationId);
                     conversations == old(conversations)[..i] + old(conversations)[i + 1..] &&
                     messages == Filter(old(messages), NotInConversation(conversationId))
      ensures forall cid :: MessagesOf(messages, cid) == if ok && cid == conversationId then [] else MessagesOf(old(messages), cid)
    {
      var i := IndexOfConversation(conversations, conversationId);
      if i < 0 {
        return false;
      }
      ghost var oldMessages := messages;
      NumberedRemove(messages, conversationId);
      RemovalKeepsTotals(conversations, messages, i);
      messages := Filter(messages, NotInConversation(conversationId));
      conversations := conversations[..i] + conversations[i + 1..];
      forall cid ensures MessagesOf(messages, cid) == if cid == conversationId then [] else MessagesOf(oldMessages, cid) {
        MessagesOfRemoved(oldMessages, conversationId, cid);
      }
      ok := true;
    }
  }
}
