/**
 * The nightly memoir pass of the backend: for every user who talked with the
 * assistant on a day (yesterday unless a day is given), the day's messages are
 * formatted like the live conversation, a long enough text is turned into a
 * memoir by the language model, and the memoir is stored once per user and
 * day. Days are day numbers; the calendar year of a day and its `dd/mm/YYYY`
 * rendering are parameters.
 */
module DailyMemoir {
  import opened Common
  import opened Sorting
  import opened MemoirExtraction
  import opened MemoirStore

  /** The shortest stripped text of a day that is sent to the model. */
  const MinDailyLength := 100
  const DailyCategory := "Nhật ký hàng ngày"
  const DailyTone := "Tích cực"
  const DailyImportance := 0.5

  /** A stored message; a message without a role counts as the user's. */
  datatype StoredMessage = StoredMessage(role: Option<string>, content: string, timestamp: int)

  /** A stored conversation with the day it started on. */
  datatype Conversation = Conversation(id: string, userId: string, startedDay: int, messages: seq<StoredMessage>)

  function Timestamp(m: StoredMessage): real {
    m.timestamp as real
  }

  function AsMessage(m: StoredMessage): (r: Message)
    ensures r.text == m.content
    ensures r.role == Some("user") <==> m.role.None? || m.role == Some("user")
  {
    Message(Some(if m.role.Some? then m.role.value else "user"), m.content)
  }

  function OnDay(userId: string, day: int): Conversation -> bool {
    (c: Conversation) => c.userId == userId && c.startedDay == day
  }

  function AsMessages(ms: seq<StoredMessage>): (r: seq<Message>)
    ensures |r| == |ms| && forall i :: 0 <= i < |ms| ==> r[i] == AsMessage(ms[i])
  {
    seq(|ms|, i requires 0 <= i < |ms| => AsMessage(ms[i]))
  }

  /** The messages of `convs`, conversation by conversation, each conversation's in timestamp order. */
  function MessagesOf(convs: seq<Conversation>): seq<Message> {
    if convs == [] then []
    else MessagesOf(convs[..|convs| - 1]) + AsMessages(SortBy(convs[|convs| - 1].messages, Timestamp))
  }

  /** `get_daily_conversations_for_user`: the messages of the user's conversations started on `day`. */
  function DailyMessages(convs: seq<Conversation>, userId: string, day: int): seq<Message> {
    MessagesOf(Filter(convs, OnDay(userId, day)))
  }

  /** A day yields messages exactly when one of its conversations holds a message. */
  lemma {:induction false} MessagesOfEmpty(convs: seq<Conversation>)
    ensures MessagesOf(convs) == [] <==> forall i :: 0 <= i < |convs| ==> convs[i].messages == []
  {
    if convs != [] {
      var init := convs[..|convs| - 1];
      MessagesOfEmpty(init);
      var last := convs[|convs| - 1].messages;
      assert |SortBy(last, Timestamp)| == |last|;
      if forall i :: 0 <= i < |convs| ==> convs[i].messages == [] {
        forall i | 0 <= i < |init| ensures init[i].messages == [] {
          assert init[i] == convs[i];
        }
      }
      if MessagesOf(convs) == [] {
        forall i | 0 <= i < |convs| ensures convs[i].messages == [] {
          if i < |init| {
            assert convs[i] == init[i];
          }
        }
      }
    }
  }

  /**
   * `format_daily_conversations_for_analysis`: nothing for no messages,
   * otherwise the rule of the live formatter, which also gives "" for no
   * messages.
   */
  function FormatDailyConversations(messages: seq<Message>): (r: string)
    ensures r == FormatConversation(messages)
  {
    if messages == [] then "" else FormatConversation(messages)
  }

  /** A stored message without a role is shown as the user's line. */
  lemma RolelessIsUser(m: StoredMessage)
    requires m.role.None?
    ensures Line(AsMessage(m)) == "User: " + m.content
  {
  }

  /** The request sent to the model for a day's text. */
  function DailyRequest(day: int, text: string, showDate: int -> string): string {
    "Dựa vào tất cả cuộc trò chuyện trong ngày " + showDate(day) + ", hãy viết thành một bài memoir có cảm xúc thật:\n\n" + text
  }

  /**
   * `extract_daily_memoir`: no model call for a text shorter than 100
   * characters once stripped; otherwise the stripped reply when it is
   * non-empty and no rejection. A failed call is the empty reply.
   */
  function ExtractDailyMemoir(conversationText: string, day: int, ask: string -> string, lower: string -> string,
                              showDate: int -> string): (r: Option<string>)
  {
    if conversationText == "" || |Strip(Python, conversationText)| < MinDailyLength then None
    else AcceptStory(ask(DailyRequest(day, conversationText, showDate)), lower)
  }

  lemma ExtractDailyMemoirSpec(text: string, day: int, ask: string -> string, lower: string -> string, showDate: int -> string)
    ensures |Strip(Python, text)| < MinDailyLength ==> ExtractDailyMemoir(text, day, ask, lower, showDate).None?
    ensures var r := ExtractDailyMemoir(text, day, ask, lower, showDate);
            r.Some? <==> |Strip(Python, text)| >= MinDailyLength && AcceptStory(ask(DailyRequest(day, text, showDate)), lower).Some?
    ensures var r := ExtractDailyMemoir(text, day, ask, lower, showDate);
            r.Some? ==> r.value != "" && r.value == Strip(Python, ask(DailyRequest(day, text, showDate))) && !Rejected(r.value, lower)
  {
    if text == "" {
      assert Strip(Python, text) == "";
    }
  }

  /** The life stage a year belongs to, seen from the current year. */
  datatype LifeStage = Present | Recent | MiddleAge | Youth

  function StageOf(year: int, currentYear: int): LifeStage {
    if year == currentYear then Present
    else if year >= currentYear - 5 then Recent
    else if year >= currentYear - 20 then MiddleAge
    else Youth
  }

  /**
   * The current year is the present; other years up to five back, and every
   * future year, are recent; up to twenty back middle age; anything older youth.
   */
  lemma StageOfSpec(year: int, currentYear: int)
    ensures StageOf(year, currentYear) == Present <==> year == currentYear
    ensures StageOf(year, currentYear) == Recent <==> year != currentYear && year >= currentYear - 5
    ensures StageOf(year, currentYear) == MiddleAge <==> currentYear - 20 <= year < currentYear - 5
    ensures StageOf(year, currentYear) == Youth <==> year < currentYear - 20
  {
  }

  function StageRank(s: LifeStage): nat {
    match s
    case Present => 0
    case Recent => 1
    case MiddleAge => 2
    case Youth => 3
  }

  /** Up to the current year, an earlier year never falls in a later stage. */
  lemma StageOfMonotone(y1: int, y2: int, currentYear: int)
    requires y1 <= y2 <= currentYear
    ensures StageRank(StageOf(y1, currentYear)) >= StageRank(StageOf(y2, currentYear))
  {
  }

  function StageName(s: LifeStage): string {
    match s
    case Present => "Hiện tại"
    case Recent => "Gần đây"
    case MiddleAge => "Trung niên"
    case Youth => "Thời trẻ"
  }

  /** `get_time_period_from_date`: `"Năm <year> (<stage>)"`. */
  function TimePeriodFromYear(year: nat, currentYear: int): (r: string)
    ensures StartsWith(r, "Năm " + NatToString(year) + " (")
  {
    var prefix := "Năm " + NatToString(year) + " (";
    var r := prefix + StageName(StageOf(year, currentYear)) + ")";
    assert r[..|prefix|] == prefix;
    r
  }

  /** The day processed: the given one, else the day before `today`. */
  function DefaultDate(targetDay: Option<int>, today: int): (d: int)
    ensures targetDay.Some? ==> d == targetDay.value
    ensures targetDay.None? ==> d + 1 == today
  {
    if targetDay.Some? then targetDay.value else today - 1
  }

  function DailyTitle(day: int, showDate: int -> string): string {
    "Kỷ niệm ngày " + showDate(day)
  }

  /** `check_existing_daily_memoir`: the user has a memoir dated `day`. */
  predicate HasMemoirOn(memoirs: seq<LifeMemoir>, userId: string, day: int) {
    exists i :: 0 <= i < |memoirs| && memoirs[i].userId == userId && memoirs[i].dateOfMemory == Some(day)
  }

  /** No user has two memoirs dated the same day. */
  ghost predicate OnePerDay(memoirs: seq<LifeMemoir>) {
    forall i, j :: 0 <= i < j < |memoirs| && memoirs[i].userId == memoirs[j].userId && memoirs[i].dateOfMemory.Some? ==>
      memoirs[i].dateOfMemory != memoirs[j].dateOfMemory
  }

  /** The record `save_daily_memoir_to_database` creates. */
  function DailyRecord(id: string, userId: string, content: string, day: int, showDate: int -> string,
                       yearOf: int -> nat, currentYear: int, now: int): LifeMemoir {
    NewMemoir(id, userId, DailyTitle(day, showDate), content, None, Some(day), Some([DailyCategory]), None, None,
              Some(TimePeriodFromYear(yearOf(day), currentYear)), Some(DailyTone), DailyImportance, now)
  }

  /** Adding a memoir for a (user, day) that has none keeps one memoir per user and day. */
  lemma {:induction false} OnePerDayAppend(memoirs: seq<LifeMemoir>, m: LifeMemoir, day: int)
    requires OnePerDay(memoirs)
    requires m.dateOfMemory == Some(day) && !HasMemoirOn(memoirs, m.userId, day)
    ensures OnePerDay(memoirs + [m])
  {
    var ms := memoirs + [m];
    forall i, j | 0 <= i < j < |ms| && ms[i].userId == ms[j].userId && ms[i].dateOfMemory.Some?
      ensures ms[i].dateOfMemory != ms[j].dateOfMemory
    {
      if j == |memoirs| {
        assert ms[i] == memoirs[i];
        assert !(memoirs[i].userId == m.userId && memoirs[i].dateOfMemory == Some(day));
      } else {
        assert ms[i] == memoirs[i] && ms[j] == memoirs[j];
      }
    }
  }

  /** What processing one user's day came to. */
  datatype DailyOutcome =
    | NoConversations
    | MemoirSaved(memoirLength: nat, messagesProcessed: nat)
    | NotSaved
    | NoMemoirContent(messagesProcessed: nat)

  /** The `success` flag of a user's result. */
  predicate Succeeded(o: DailyOutcome) {
    !o.NotSaved?
  }

  function MemoirLength(o: DailyOutcome): nat {
    if o.MemoirSaved? then o.memoirLength else 0
  }

  predicate CountsAsSuccess(o: DailyOutcome) {
    Succeeded(o) && MemoirLength(o) > 0
  }

  predicate CountsAsFailure(o: DailyOutcome) {
    !Succeeded(o)
  }

  predicate CountsAsNoContent(o: DailyOutcome) {
    Succeeded(o) && MemoirLength(o) == 0
  }

  /** `process_daily_memoir_for_user` on the day's messages, when saving succeeds or not. */
  function UserOutcome(messages: seq<Message>, day: int, ask: string -> string, lower: string -> string,
                       showDate: int -> string, saved: bool): DailyOutcome {
    if messages == [] then NoConversations
    else
      var story := ExtractDailyMemoir(FormatDailyConversations(messages), day, ask, lower, showDate);
      if story.None? then NoMemoirContent(|messages|)
      else if saved then MemoirSaved(|story.value|, |messages|)
      else NotSaved
  }

  /**
   * No messages means success without a memoir; a saved memoir is never empty,
   * so it always counts as a successful extraction; a failure is only ever a
   * memoir the store did not take.
   */
  lemma UserOutcomeSpec(messages: seq<Message>, day: int, ask: string -> string, lower: string -> string,
                        showDate: int -> string, saved: bool)
    ensures var o := UserOutcome(messages, day, ask, lower, showDate, saved);
            (o == NoConversations <==> messages == []) &&
            (o.MemoirSaved? ==> o.memoirLength > 0 && CountsAsSuccess(o)) &&
            (o == NotSaved <==> messages != [] && !saved &&
                                  ExtractDailyMemoir(FormatDailyConversations(messages), day, ask, lower, showDate).Some?)
  {
    if messages != [] {
      ExtractDailyMemoirSpec(FormatDailyConversations(messages), day, ask, lower, showDate);
    }
  }

  /** Success, failure and no content split every list of results. */
  lemma {:induction false} CountsPartition(os: seq<DailyOutcome>)
    ensures Count(os, CountsAsSuccess) + Count(os, CountsAsFailure) + Count(os, CountsAsNoContent) == |os|
  {
    if os != [] {
      CountsPartition(os[1..]);
    }
  }

  /** The distinct users with a conversation started on `day`, in order of first occurrence. */
  function UsersOn(convs: seq<Conversation>, day: int): (users: seq<string>)
    ensures forall u :: u in users ==> exists i :: 0 <= i < |convs| && convs[i].userId == u && convs[i].startedDay == day
    ensures forall i :: 0 <= i < |convs| && convs[i].startedDay == day ==> convs[i].userId in users
    ensures forall i, j :: 0 <= i < j < |users| ==> users[i] != users[j]
  {
    if convs == [] then []
    else
      var init := convs[..|convs| - 1];
      var users := UsersOn(init, day);
      var c := convs[|convs| - 1];
      var r := if c.startedDay != day || c.userId in users then users else users + [c.userId];
      assert forall i :: 0 <= i < |convs| && convs[i].startedDay == day ==> convs[i].userId in r by {
        forall i | 0 <= i < |convs| && convs[i].startedDay == day ensures convs[i].userId in r {
          if i < |init| {
            assert convs[i] == init[i];
          }
        }
      }
      assert forall u :: u in r ==> exists i :: 0 <= i < |convs| && convs[i].userId == u && convs[i].startedDay == day by {
        forall u | u in r ensures exists i :: 0 <= i < |convs| && convs[i].userId == u && convs[i].startedDay == day {
          if u in users {
            var i :| 0 <= i < |init| && init[i].userId == u && init[i].startedDay == day;
            assert convs[i] == init[i];
          } else {
            assert convs[|convs| - 1].userId == u;
          }
        }
      }
      r
  }

  /** The language model, the date and year renderings and the clock shared by a nightly pass. */
  datatype DailyEnv = DailyEnv(ask: string -> string, lower: string -> string, showDate: int -> string,
                               yearOf: int -> nat, currentYear: int, now: int)

  /** The memoir text a user's day yields: nothing without messages, else what the model's reply gives. */
  function DayStory(messages: seq<Message>, day: int, env: DailyEnv): (r: Option<string>)
    ensures r.Some? ==> messages != [] && r.value != ""
    ensures r.Some? <==> UserOutcome(messages, day, env.ask, env.lower, env.showDate, true).MemoirSaved?
  {
    if messages == [] then None
    else
      ExtractDailyMemoirSpec(FormatDailyConversations(messages), day, env.ask, env.lower, env.showDate);
      ExtractDailyMemoir(FormatDailyConversations(messages), day, env.ask, env.lower, env.showDate)
  }

  /**
   * The memoir table after one user's day: the daily record is added when
   * there is a story, the day has no memoir of the user yet and the insert
   * succeeds.
   */
  function AfterSave(memoirs: seq<LifeMemoir>, userId: string, story: Option<string>, day: int, env: DailyEnv,
                     newId: string, createSucceeds: bool): (r: seq<LifeMemoir>)
    ensures memoirs <= r && |r| <= |memoirs| + 1
    ensures forall u :: HasMemoirOn(r, u, day) <==>
                          HasMemoirOn(memoirs, u, day) || (u == userId && story.Some? && createSucceeds)
    ensures OnePerDay(memoirs) ==> OnePerDay(r)
  {
    if story.Some? && !HasMemoirOn(memoirs, userId, day) && createSucceeds then
      var m := DailyRecord(newId, userId, story.value, day, env.showDate, env.yearOf, env.currentYear, env.now);
      var r := memoirs + [m];
      assert r[|memoirs|] == m;
      assert forall u :: HasMemoirOn(r, u, day) <==> HasMemoirOn(memoirs, u, day) || u == userId by {
        forall u ensures HasMemoirOn(r, u, day) <==> HasMemoirOn(memoirs, u, day) || u == userId {
          if HasMemoirOn(memoirs, u, day) {
            var i :| 0 <= i < |memoirs| && memoirs[i].userId == u && memoirs[i].dateOfMemory == Some(day);
            assert r[i] == memoirs[i];
          }
          if HasMemoirOn(r, u, day) && u != userId {
            var i :| 0 <= i < |r| && r[i].userId == u && r[i].dateOfMemory == Some(day);
            assert i < |memoirs| && memoirs[i] == r[i];
          }
        }
      }
      assert OnePerDay(memoirs) ==> OnePerDay(r) by {
        if OnePerDay(memoirs) {
          OnePerDayAppend(memoirs, m, day);
        }
      }
      r
    else memoirs
  }

  /** The memoir table after the users of `users`, one after the other. */
  function StoreAfterUsers(memoirs: seq<LifeMemoir>, convs: seq<Conversation>, users: seq<string>, day: int,
                           env: DailyEnv, newId: string -> string, createSucceeds: string -> bool): seq<LifeMemoir>
  {
    if users == [] then memoirs
    else
      var u := users[|users| - 1];
      AfterSave(StoreAfterUsers(memoirs, convs, users[..|users| - 1], day, env, newId, createSucceeds), u,
                DayStory(DailyMessages(convs, u, day), day, env), day, env, newId(u), createSucceeds(u))
  }

  /** One user's outcome in a pass, judged against the table `memoirs` as it was before the pass. */
  function OutcomeIn(memoirs: seq<LifeMemoir>, convs: seq<Conversation>, u: string, day: int, env: DailyEnv,
                     createSucceeds: string -> bool): DailyOutcome
  {
    UserOutcome(DailyMessages(convs, u, day), day, env.ask, env.lower, env.showDate,
                HasMemoirOn(memoirs, u, day) || createSucceeds(u))
  }

  /** The outcomes of a pass over `users`, in order. */
  function PassOutcomes(memoirs: seq<LifeMemoir>, convs: seq<Conversation>, users: seq<string>, day: int,
                        env: DailyEnv, createSucceeds: string -> bool): (r: seq<DailyOutcome>)
    ensures |r| == |users|
  {
    if users == [] then []
    else PassOutcomes(memoirs, convs, users[..|users| - 1], day, env, createSucceeds) +
         [OutcomeIn(memoirs, convs, users[|users| - 1], day, env, createSucceeds)]
  }

  /** The k-th outcome of a pass is the k-th user's. */
  lemma {:induction false} PassOutcomesAt(memoirs: seq<LifeMemoir>, convs: seq<Conversation>, users: seq<string>,
                                          day: int, env: DailyEnv, createSucceeds: string -> bool)
    ensures var r := PassOutcomes(memoirs, convs, users, day, env, createSucceeds);
            forall k :: 0 <= k < |users| ==> r[k] == OutcomeIn(memoirs, convs, users[k], day, env, createSucceeds)
  {
    if users != [] {
      var init := users[..|users| - 1];
      PassOutcomesAt(memoirs, convs, init, day, env, createSucceeds);
      var prev := PassOutcomes(memoirs, convs, init, day, env, createSucceeds);
      var r := PassOutcomes(memoirs, convs, users, day, env, createSucceeds);
      assert r == prev + [OutcomeIn(memoirs, convs, users[|users| - 1], day, env, createSucceeds)];
      forall k | 0 <= k < |users| ensures r[k] == OutcomeIn(memoirs, convs, users[k], day, env, createSucceeds) {
        if k < |init| {
          assert r[k] == prev[k] && init[k] == users[k];
        }
      }
    }
  }

  /**
   * After the pass, a user has a memoir on the day exactly when it had one
   * before or it was processed, its day yields a story and the insert
   * succeeded; rows are only added, and one memoir per user and day is kept.
   */
  lemma {:induction false} StoreAfterUsersSpec(memoirs: seq<LifeMemoir>, convs: seq<Conversation>, users: seq<string>,
                                               day: int, env: DailyEnv, newId: string -> string,
                                               createSucceeds: string -> bool)
    ensures var r := StoreAfterUsers(memoirs, convs, users, day, env, newId, createSucceeds);
            memoirs <= r && |r| <= |memoirs| + |users| &&
            (OnePerDay(memoirs) ==> OnePerDay(r)) &&
            forall u :: HasMemoirOn(r, u, day) <==>
                          HasMemoirOn(memoirs, u, day) ||
                          (u in users && DayStory(DailyMessages(convs, u, day), day, env).Some? && createSucceeds(u))
  {
    if users != [] {
      var init := users[..|users| - 1];
      StoreAfterUsersSpec(memoirs, convs, init, day, env, newId, createSucceeds);
      assert forall u :: u in users <==> u in init || u == users[|users| - 1];
    }
  }

  /**
   * When a user comes up in a list without repetition, the users before it
   * have not changed whether it has a memoir on the day.
   */
  lemma UntouchedBeforeVisit(memoirs: seq<LifeMemoir>, convs: seq<Conversation>, users: seq<string>, i: int,
                             day: int, env: DailyEnv, newId: string -> string, createSucceeds: string -> bool)
    requires 0 <= i < |users| && forall a, b :: 0 <= a < b < |users| ==> users[a] != users[b]
    ensures HasMemoirOn(StoreAfterUsers(memoirs, convs, users[..i], day, env, newId, createSucceeds), users[i], day) ==
            HasMemoirOn(memoirs, users[i], day)
  {
    StoreAfterUsersSpec(memoirs, convs, users[..i], day, env, newId, createSucceeds);
    assert users[i] !in users[..i];
  }

  /** One more user processed is one more save on top of the table so far. */
  lemma StoreAfterUsersStep(memoirs: seq<LifeMemoir>, convs: seq<Conversation>, users: seq<string>, i: int,
                            day: int, env: DailyEnv, newId: string -> string, createSucceeds: string -> bool)
    requires 0 <= i < |users|
    ensures StoreAfterUsers(memoirs, convs, users[..i + 1], day, env, newId, createSucceeds) ==
            AfterSave(StoreAfterUsers(memoirs, convs, users[..i], day, env, newId, createSucceeds), users[i],
                      DayStory(DailyMessages(convs, users[i], day), day, env), day, env, newId(users[i]),
                      createSucceeds(users[i]))
  {
    assert users[..i + 1][..i] == users[..i];
  }

  /** One more user processed is one more outcome after the outcomes so far. */
  lemma PassOutcomesStep(memoirs: seq<LifeMemoir>, convs: seq<Conversation>, users: seq<string>, i: int, day: int,
                         env: DailyEnv, createSucceeds: string -> bool)
    requires 0 <= i < |users|
    ensures PassOutcomes(memoirs, convs, users[..i + 1], day, env, createSucceeds) ==
            PassOutcomes(memoirs, convs, users[..i], day, env, createSucceeds) +
            [OutcomeIn(memoirs, convs, users[i], day, env, createSucceeds)]
  {
    assert users[..i + 1][..i] == users[..i];
  }

  /** The summary `process_daily_memoir_for_all_users` returns. */
  datatype DailySummary =
    | NoUsers(day: int)
    | Summary(day: int, usersProcessed: nat, successful: nat, failed: nat, noContent: int, results: seq<DailyOutcome>)

  /** Adding one result to the list adds it to the count it belongs to. */
  lemma TallyStep(os: seq<DailyOutcome>, o: DailyOutcome)
    ensures Count(os + [o], CountsAsSuccess) == Count(os, CountsAsSuccess) + (if CountsAsSuccess(o) then 1 else 0)
    ensures Count(os + [o], CountsAsFailure) == Count(os, CountsAsFailure) + (if CountsAsFailure(o) then 1 else 0)
  {
    CountAppend(os, [o], CountsAsSuccess);
    CountAppend(os, [o], CountsAsFailure);
  }

  class DailyMemoirService {
    var conversations: seq<Conversation>
    const store: MemoirDBService

    constructor (store: MemoirDBService, conversations: seq<Conversation>)
      ensures this.store == store && this.conversations == conversations
    {
      this.store := store;
      this.conversations := conversations;
    }

    /**
     * `save_daily_memoir_to_database`: a user's day that already has a memoir
     * is left alone and reported saved; otherwise the daily record is created,
     * and the outcome is whether the store took it. One memoir per user and
     * day is kept.
     */
    method SaveDailyMemoirToDatabase(userId: string, content: string, day: int, showDate: int -> string,
                                     yearOf: int -> nat, currentYear: int, newId: string, now: int,
                                     createSucceeds: bool) returns (ok: bool)
      modifies store
      ensures HasMemoirOn(old(store.memoirs), userId, day) ==> ok && store.memoirs == old(store.memoirs)
      ensures !HasMemoirOn(old(store.memoirs), userId, day) ==>
                ok == createSucceeds &&
                store.memoirs == if createSucceeds
                                 then old(store.memoirs) + [DailyRecord(newId, userId, content, day, showDate, yearOf, currentYear, now)]
                                 else old(store.memoirs)
      ensures OnePerDay(old(store.memoirs)) ==> OnePerDay(store.memoirs)
    {
      if HasMemoirOn(store.memoirs, userId, day) {
        return true;
      }
      var memoir := store.CreateMemoir(newId, userId, DailyTitle(day, showDate), content, None, Some(day),
                                       Some([DailyCategory]), None, None,
                                       Some(TimePeriodFromYear(yearOf(day), currentYear)), Some(DailyTone),
                                       DailyImportance, now, createSucceeds);
      if memoir.Some? && OnePerDay(old(store.memoirs)) {
        OnePerDayAppend(old(store.memoirs), memoir.value, day);
      }
      ok := memoir.Some?;
    }

    /**
     * `process_daily_memoir_for_user`: the day's messages are formatted,
     * turned into a memoir if they hold one, and the memoir saved.
     */
    method ProcessDailyMemoirForUser(userId: string, targetDay: Option<int>, today: int, ask: string -> string,
                                     lower: string -> string, showDate: int -> string, yearOf: int -> nat,
                                     currentYear: int, newId: string, now: int, createSucceeds: bool)
      returns (day: int, o: DailyOutcome)
      modifies store
      ensures day == DefaultDate(targetDay, today)
      ensures o == UserOutcome(DailyMessages(conversations, userId, day), day, ask, lower, showDate,
                               HasMemoirOn(old(store.memoirs), userId, day) || createSucceeds)
      ensures store.memoirs == AfterSave(old(store.memoirs), userId,
                                         DayStory(DailyMessages(conversations, userId, day), day,
                                                  DailyEnv(ask, lower, showDate, yearOf, currentYear, now)),
                                         day, DailyEnv(ask, lower, showDate, yearOf, currentYear, now), newId,
                                         createSucceeds)
      ensures OnePerDay(old(store.memoirs)) ==> OnePerDay(store.memoirs)
    {
      day := DefaultDate(targetDay, today);
      var dailyMessages := DailyMessages(conversations, userId, day);
      if dailyMessages == [] {
        return day, NoConversations;
      }
      var conversationText := FormatDailyConversations(dailyMessages);
      var memoirContent := ExtractDailyMemoir(conversationText, day, ask, lower, showDate);
      if memoirContent.Some? {
        var saved := SaveDailyMemoirToDatabase(userId, memoirContent.value, day, showDate, yearOf, currentYear,
                                               newId, now, createSucceeds);
        if saved {
          o := MemoirSaved(|memoirContent.value|, |dailyMessages|);
        } else {
          o := NotSaved;
        }
      } else {
        o := NoMemoirContent(|dailyMessages|);
      }
    }

    /**
     * The loop of `process_daily_memoir_for_all_users` over users listed once
     * each: the outcomes in order, with the successes and failures counted.
     */
    method ProcessUsers(userIds: seq<string>, day: int, today: int, ask: string -> string, lower: string -> string,
                        showDate: int -> string, yearOf: int -> nat, currentYear: int, newId: string -> string,
                        now: int, createSucceeds: string -> bool)
      returns (results: seq<DailyOutcome>, successful: nat, failed: nat)
      requires forall a, b :: 0 <= a < b < |userIds| ==> userIds[a] != userIds[b]
      modifies store
      ensures |results| == |userIds|
      ensures successful == Count(results, CountsAsSuccess) && failed == Count(results, CountsAsFailure)
      ensures forall k :: 0 <= k < |results| ==>
                results[k] == UserOutcome(DailyMessages(conversations, userIds[k], day), day, ask, lower, showDate,
                                          HasMemoirOn(old(store.memoirs), userIds[k], day) || createSucceeds(userIds[k]))
      ensures store.memoirs == StoreAfterUsers(old(store.memoirs), conversations, userIds, day,
                                               DailyEnv(ask, lower, showDate, yearOf, currentYear, now), newId,
                                               createSucceeds)
      ensures OnePerDay(old(store.memoirs)) ==> OnePerDay(store.memoirs)
    {
      results, successful, failed := [], 0, 0;
      ghost var env := DailyEnv(ask, lower, showDate, yearOf, currentYear, now);
      for i := 0 to |userIds|
        invariant |results| == i
        invariant successful == Count(results, CountsAsSuccess) && failed == Count(results, CountsAsFailure)
        invariant store.memoirs == StoreAfterUsers(old(store.memoirs), conversations, userIds[..i], day, env, newId,
                                                   createSucceeds)
        invariant results == PassOutcomes(old(store.memoirs), conversations, userIds[..i], day, env, createSucceeds)
      {
        var userId := userIds[i];
        UntouchedBeforeVisit(old(store.memoirs), conversations, userIds, i, day, env, newId, createSucceeds);
        StoreAfterUsersStep(old(store.memoirs), conversations, userIds, i, day, env, newId, createSucceeds);
        PassOutcomesStep(old(store.memoirs), conversations, userIds, i, day, env, createSucceeds);
        ghost var had := HasMemoirOn(store.memoirs, userId, day);
        assert had == HasMemoirOn(old(store.memoirs), userId, day);
        var _, result := ProcessDailyMemoirForUser(userId, Some(day), today, ask, lower, showDate, yearOf,
                                                   currentYear, newId(userId), now, createSucceeds(userId));
        assert result == UserOutcome(DailyMessages(conversations, userId, day), day, ask, lower, showDate,
                                     had || createSucceeds(userId));
        TallyStep(results, result);
        results := results + [result];
        if CountsAsSuccess(result) {
          successful := successful + 1;
        } else if !Succeeded(result) {
          failed := failed + 1;
        }
      }
      assert userIds[..|userIds|] == userIds;
      StoreAfterUsersSpec(old(store.memoirs), conversations, userIds, day, env, newId, createSucceeds);
      PassOutcomesAt(old(store.memoirs), conversations, userIds, day, env, createSucceeds);
    }

    /**
     * `process_daily_memoir_for_all_users`: every user who talked on the day
     * is processed once, in order; the i-th result is that user's outcome
     * judged against the table as it was before the pass (no user's save
     * touches another user's day); the successes, failures and users without
     * content split the users between them; and the table is the one the
     * saves of all those users give.
     */
    method ProcessDailyMemoirForAllUsers(targetDay: Option<int>, today: int, ask: string -> string,
                                         lower: string -> string, showDate: int -> string, yearOf: int -> nat,
                                         currentYear: int, newId: string -> string, now: int,
                                         createSucceeds: string -> bool)
      returns (summary: DailySummary)
      modifies store
      ensures summary.day == DefaultDate(targetDay, today)
      ensures summary.NoUsers? <==> UsersOn(conversations, summary.day) == []
      ensures summary.Summary? ==>
                summary.usersProcessed == |UsersOn(conversations, summary.day)| == |summary.results| &&
                summary.successful == Count(summary.results, CountsAsSuccess) &&
                summary.failed == Count(summary.results, CountsAsFailure) &&
                summary.noContent == Count(summary.results, CountsAsNoContent) &&
                summary.successful + summary.failed + summary.noContent == summary.usersProcessed
      ensures summary.Summary? ==>
                var users := UsersOn(conversations, summary.day);
                forall i :: 0 <= i < |summary.results| ==>
                  summary.results[i] ==
                    UserOutcome(DailyMessages(conversations, users[i], summary.day), summary.day, ask, lower, showDate,
                                HasMemoirOn(old(store.memoirs), users[i], summary.day) || createSucceeds(users[i]))
      ensures store.memoirs == StoreAfterUsers(old(store.memoirs), conversations, UsersOn(conversations, summary.day),
                                               summary.day, DailyEnv(ask, lower, showDate, yearOf, currentYear, now),
                                               newId, createSucceeds)
      ensures OnePerDay(old(store.memoirs)) ==> OnePerDay(store.memoirs)
    {
      var day := DefaultDate(targetDay, today);
      var userIds := UsersOn(conversations, day);
      if userIds == [] {
        return NoUsers(day);
      }
      var results, successfulExtractions, failedExtractions := ProcessUsers(userIds, day, today, ask, lower, showDate,
                                                                            yearOf, currentYear, newId, now,
                                                                            createSucceeds);
      CountsPartition(results);
      summary := Summary(day, |userIds|, successfulExtractions, failedExtractions,
                         |userIds| - successfulExtractions - failedExtractions, results);
    }
  }
}
