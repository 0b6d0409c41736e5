/**
 * The live memoir extraction service of the backend: the conversation
 * history is flattened into `User:`/`AI:` lines, a language model is asked
 * to write a memoir story from it, and replies that say there is nothing
 * worth telling are dropped. Extraction is triggered after enough new
 * messages, after five minutes, or on the first message ever.
 */
module MemoirExtraction {
  import opened Common

  /** One entry of the conversation history; `role` is absent when the entry has no `role` key. */
  datatype Message = Message(role: Option<string>, text: string)

  predicate HasText(m: Message) {
    !IsBlank(Python, m.text)
  }

  /** The line a message contributes: `User: <text>` for the user, `AI: <text>` for any other role. */
  function Line(m: Message): string {
    (if m.role == Some("user") then "User" else "AI") + ": " + m.text
  }

  /** One line per message that is not blank, in order. */
  function Lines(messages: seq<Message>): (r: seq<string>)
    ensures |r| == |Filter(messages, HasText)| == Count(messages, HasText)
    ensures forall i :: 0 <= i < |r| ==> r[i] == Line(Filter(messages, HasText)[i])
  {
    FilterLength(messages, HasText);
    var kept := Filter(messages, HasText);
    seq(|kept|, i requires 0 <= i < |kept| => Line(kept[i]))
  }

  /**
   * `format_conversation_for_analysis`: the lines of the messages that are
   * not blank, joined by newlines.
   */
  function FormatConversation(messages: seq<Message>): (r: string)
    ensures messages == [] ==> r == ""
  {
    Join(Lines(messages), "\n")
  }

  /** Joining non-empty parts gives the empty string exactly when there are no parts. */
  lemma {:induction false} JoinEmptyIff(parts: seq<string>, sep: string)
    requires forall i :: 0 <= i < |parts| ==> parts[i] != ""
    ensures Join(parts, sep) == "" <==> parts == []
  {
    if |parts| > 1 {
      assert |Join(parts, sep)| >= |parts[0]| > 0;
    }
  }

  /**
   * The formatted conversation is empty exactly when every message is blank,
   * and otherwise consists of one line per non-blank message.
   */
  lemma FormatConversationSpec(messages: seq<Message>)
    ensures FormatConversation(messages) == "" <==> forall i :: 0 <= i < |messages| ==> !HasText(messages[i])
    ensures |Lines(messages)| == 1 ==> FormatConversation(messages) == Line(Filter(messages, HasText)[0])
  {
    var parts := Lines(messages);
    forall i | 0 <= i < |parts| ensures parts[i] != "" {
      assert |parts[i]| >= 2;
    }
    JoinEmptyIff(parts, "\n");
  }

  /** The replies of the model that mean "nothing worth telling". */
  const RejectionPhrases: seq<string> := [
    "không có câu chuyện đáng kể", "không có nội dung đặc biệt",
    "cuộc trò chuyện thông thường", "không có thông tin quan trọng"]

  /** The lower-cased reply contains one of the rejection phrases. */
  predicate Rejected(reply: string, lower: string -> string) {
    exists k :: 0 <= k < |RejectionPhrases| && Contains(lower(reply), RejectionPhrases[k])
  }

  /** The stripped reply, when it is non-empty and not a rejection; otherwise nothing. */
  function AcceptStory(reply: string, lower: string -> string): (r: Option<string>)
    ensures r.Some? <==> Strip(Python, reply) != "" && !Rejected(Strip(Python, reply), lower)
    ensures r.Some? ==> r.value == Strip(Python, reply)
  {
    var result := Strip(Python, reply);
    if result != "" && !Rejected(result, lower) then Some(result) else None
  }

  /** The shortest stripped conversation text the live extraction sends to the model. */
  const MinExtractionLength := 50

  /** The request the live extraction sends along with the system prompt. */
  function StoryRequest(conversationText: string): string {
    "Dựa vào cuộc trò chuyện này, hãy viết thành một bài memoir có cảm xúc thật:\n\n" + conversationText
  }

  /**
   * `extract_important_info`: the model is asked only about text of at
   * least 50 characters after stripping, and its stripped reply is kept
   * unless it is empty or a rejection. A failed call is a reply of "".
   */
  function ExtractImportantInfo(conversationText: string, ask: string -> string, lower: string -> string): string
  {
    if |Strip(Python, conversationText)| < MinExtractionLength then ""
    else
      var story := AcceptStory(ask(StoryRequest(conversationText)), lower);
      if story.Some? then story.value else ""
  }

  /**
   * No story comes from a conversation under 50 stripped characters; from a
   * longer one, a story comes exactly when the stripped reply is non-empty
   * and not a rejection, and it is that reply.
   */
  lemma ExtractImportantInfoSpec(conversationText: string, ask: string -> string, lower: string -> string)
    ensures |Strip(Python, conversationText)| < MinExtractionLength ==> ExtractImportantInfo(conversationText, ask, lower) == ""
    ensures |Strip(Python, conversationText)| >= MinExtractionLength ==>
              var r := ExtractImportantInfo(conversationText, ask, lower);
              var reply := Strip(Python, ask(StoryRequest(conversationText)));
              (r != "" <==> reply != "" && !Rejected(reply, lower)) && (r != "" ==> r == reply)
  {
  }

  /** The keywords that suggest memoir content. */
  const ImportantKeywords: seq<string> := [
    "năm", "ngày", "tháng", "thời", "lúc đó", "khi", "hồi",
    "ông", "bà", "ba", "má", "anh", "chị", "em", "con", "cháu", "gia đình",
    "làng", "thành phố", "tỉnh", "quê", "nhà",
    "sinh", "cưới", "chết", "mất", "học", "làm việc", "nghề",
    "nhớ", "quên", "cảm xúc", "vui", "buồn", "khóc", "cười",
    "chiến tranh", "kháng chiến", "giải phóng", "độc lập", "cách mạng"]

  /** The phrases that mark memoir content on their own. */
  const MemoirPatterns: seq<string> := [
    "tôi nhớ", "hồi đó", "ngày xưa", "thời", "năm", "khi tôi",
    "ông bà", "ba má", "gia đình tôi", "quê tôi", "làng tôi"]

  /** How many entries of `words` occur in `t`. */
  function Matches(words: seq<string>, t: string): (n: nat)
    ensures n == Count(words, (w: string) => Contains(t, w))
  {
    Count(words, (w: string) => Contains(t, w))
  }

  /** The shortest stripped message `has_important_content` looks at. */
  const MinImportantLength := 20

  /**
   * `has_important_content`: a message of at least 20 stripped characters
   * whose lower-cased text holds two keywords or one memoir pattern.
   */
  predicate HasImportantContent(messageText: string, lower: string -> string) {
    |Strip(Python, messageText)| >= MinImportantLength &&
    (Matches(ImportantKeywords, lower(messageText)) >= 2 || Matches(MemoirPatterns, lower(messageText)) >= 1)
  }

  /** For each memoir pattern, the index of a keyword it begins or ends with. */
  const PatternKeyword: seq<nat> := [29, 6, 1, 3, 0, 5, 7, 9, 16, 20, 17]

  lemma PatternHoldsKeyword(k: nat)
    requires k < |MemoirPatterns|
    ensures PatternKeyword[k] < |ImportantKeywords| && Contains(MemoirPatterns[k], ImportantKeywords[PatternKeyword[k]])
  {
    var p, w := MemoirPatterns[k], ImportantKeywords[PatternKeyword[k]];
    if k == 0 {
      assert p[4..4 + |w|] == w;
      ContainsAt(p, w, 4);
    } else {
      assert p[0..|w|] == w;
      ContainsAt(p, w, 0);
    }
  }

  /** A word of `words` found in `t` is a match, and a match is a word found in `t`. */
  lemma MatchesWitness(words: seq<string>, t: string)
    ensures Matches(words, t) >= 1 <==> exists k :: 0 <= k < |words| && Contains(t, words[k])
  {
  }

  /** When each pattern holds one of the keywords, a text matching a pattern matches a keyword. */
  lemma {:induction false} PatternMatchGivesKeyword(keywords: seq<string>, patterns: seq<string>, index: seq<nat>, t: string)
    requires |index| == |patterns|
    requires forall k :: 0 <= k < |patterns| ==> index[k] < |keywords| && Contains(patterns[k], keywords[index[k]])
    requires Matches(keywords, t) >= 2 || Matches(patterns, t) >= 1
    ensures Matches(keywords, t) >= 1
  {
    if Matches(keywords, t) >= 2 {
      return;
    }
    MatchesWitness(patterns, t);
    var k :| 0 <= k < |patterns| && Contains(t, patterns[k]);
    ContainsTransitive(t, patterns[k], keywords[index[k]]);
    MatchesWitness(keywords, t);
  }

  /**
   * Every memoir pattern contains a keyword, so a message that counts as
   * important always contains at least one keyword.
   */
  lemma ImportantHasKeyword(messageText: string, lower: string -> string)
    requires HasImportantContent(messageText, lower)
    ensures Matches(ImportantKeywords, lower(messageText)) >= 1
  {
    PatternsHoldKeywords();
    PatternMatchGivesKeyword(ImportantKeywords, MemoirPatterns, PatternKeyword, lower(messageText));
  }

  lemma PatternsHoldKeywords()
    ensures |PatternKeyword| == |MemoirPatterns|
    ensures forall k :: 0 <= k < |MemoirPatterns| ==>
              PatternKeyword[k] < |ImportantKeywords| && Contains(MemoirPatterns[k], ImportantKeywords[PatternKeyword[k]])
  {
    forall k | 0 <= k < |MemoirPatterns|
      ensures PatternKeyword[k] < |ImportantKeywords| && Contains(MemoirPatterns[k], ImportantKeywords[PatternKeyword[k]])
    {
      PatternHoldsKeyword(k);
    }
  }

  /** The time threshold of five minutes, in microseconds. */
  const TimeThreshold := 5 * 60 * 1000000

  /**
   * `should_auto_extract`: enough new messages since the last extraction,
   * or five minutes since it, or, before any extraction, any message at all.
   */
  function ShouldAutoExtract(currentCount: nat, lastProcessedCount: int, threshold: int,
                             lastExtractionTime: Option<int>, now: int): (r: bool)
  {
    if currentCount - lastProcessedCount >= threshold then true
    else if lastExtractionTime.Some? then now - lastExtractionTime.value >= TimeThreshold
    else currentCount > 0
  }

  /**
   * With a threshold of at least one: before any extraction, extraction is
   * due exactly when there is a message; afterwards, exactly when enough new
   * messages arrived or five minutes passed.
   */
  lemma ShouldAutoExtractSpec(currentCount: nat, lastProcessedCount: int, threshold: int,
                              lastExtractionTime: Option<int>, now: int)
    requires threshold >= 1 && lastProcessedCount >= 0
    ensures lastExtractionTime.None? ==>
              (ShouldAutoExtract(currentCount, lastProcessedCount, threshold, lastExtractionTime, now) <==> currentCount > 0)
    ensures lastExtractionTime.Some? ==>
              (ShouldAutoExtract(currentCount, lastProcessedCount, threshold, lastExtractionTime, now) <==>
               currentCount - lastProcessedCount >= threshold || now - lastExtractionTime.value >= TimeThreshold)
  {
  }

  /** The shortest formatted history the background processing analyses. */
  const MinHistoryLength := 100

  datatype ProcessOutcome = NoHistory | TooShort | Saved(story: string) | SaveFailed | NothingFound

  /** What one background pass over `history` yields. */
  function BackgroundOutcome(history: seq<Message>, ask: string -> string, lower: string -> string,
                             appendSucceeds: bool): ProcessOutcome
  {
    if history == [] then NoHistory
    else
      var text := FormatConversation(history);
      if |text| < MinHistoryLength then TooShort
      else
        var story := ExtractImportantInfo(text, ask, lower);
        if story == "" then NothingFound
        else if appendSucceeds then Saved(story)
        else SaveFailed
  }

  /**
   * A pass saves only a story the model actually wrote, stripped and not a
   * rejection, and only for a formatted history of at least 100 characters;
   * an empty history yields nothing.
   */
  lemma BackgroundOutcomeSpec(history: seq<Message>, ask: string -> string, lower: string -> string, appendSucceeds: bool)
    ensures BackgroundOutcome(history, ask, lower, appendSucceeds) == NoHistory <==> history == []
    ensures var r := BackgroundOutcome(history, ask, lower, appendSucceeds);
            var text := FormatConversation(history);
            r.Saved? ==> appendSucceeds && |text| >= MinHistoryLength && r.story != "" &&
                         r.story == Strip(Python, ask(StoryRequest(text))) && !Rejected(r.story, lower)
  {
    if history != [] {
      ExtractImportantInfoSpec(FormatConversation(history), ask, lower);
    }
  }

  class MemoirExtractionService {
    /** The conversation history file. */
    var conversation: seq<Message>
    /** The stories appended to the memoir file, oldest first. */
    var memoirFile: seq<string>
    var lastProcessedCount: int
    var autoExtractionThreshold: int
    var lastExtractionTime: Option<int>
    /** A background extraction task has been started and has not finished. */
    var taskRunning: bool

    ghost predicate Valid()
      reads this
    {
      autoExtractionThreshold >= 1 && 0 <= lastProcessedCount <= |conversation|
    }

    constructor (history: seq<Message>)
      ensures Valid() && conversation == history && memoirFile == []
      ensures lastProcessedCount == 0 && autoExtractionThreshold == 3 && lastExtractionTime == None && !taskRunning
    {
      conversation := history;
      memoirFile := [];
      lastProcessedCount := 0;
      autoExtractionThreshold := 3;
      lastExtractionTime := None;
      taskRunning := false;
    }

    /** `update_auto_extraction_threshold`: values below 1 are refused and change nothing. */
    method UpdateAutoExtractionThreshold(threshold: int) returns (ok: bool)
      requires Valid()
      modifies this`autoExtractionThreshold
      ensures Valid()
      ensures ok <==> threshold >= 1
      ensures autoExtractionThreshold == if ok then threshold else old(autoExtractionThreshold)
    {
      if threshold < 1 {
        return false;
      }
      autoExtractionThreshold := threshold;
      return true;
    }

    /** `start_background_extraction`: a second task is not started while one runs. */
    method StartBackgroundExtraction() returns (started: bool)
      modifies this`taskRunning
      ensures started <==> !old(taskRunning)
      ensures taskRunning
    {
      if taskRunning {
        return false;
      }
      taskRunning := true;
      return true;
    }

    /**
     * `update_conversation_and_extract` at time `now`: the message is
     * appended; when extraction is due, the background task is started and
     * every message so far counts as processed.
     */
    method UpdateConversationAndExtract(newMessage: Message, now: int) returns (triggered: bool)
      requires Valid()
      modifies this`conversation, this`lastProcessedCount, this`taskRunning
      ensures Valid()
      ensures conversation == old(conversation) + [newMessage]
      ensures triggered == ShouldAutoExtract(|conversation|, old(lastProcessedCount), autoExtractionThreshold,
                                             lastExtractionTime, now)
      ensures lastProcessedCount == if triggered then |conversation| else old(lastProcessedCount)
      ensures taskRunning == (old(taskRunning) || triggered)
    {
      conversation := conversation + [newMessage];
      triggered := ShouldAutoExtract(|conversation|, lastProcessedCount, autoExtractionThreshold, lastExtractionTime, now);
      if triggered {
        var _ := StartBackgroundExtraction();
        lastProcessedCount := |conversation|;
      }
    }

    /**
     * `process_conversation_history_background`, run to completion at time
     * `now`: nothing for an empty history or a formatted history under 100
     * characters; otherwise the extracted story, if any, is appended to the
     * memoir file, and the extraction time is recorded unless the append fails.
     */
    method ProcessConversationHistoryBackground(now: int, ask: string -> string, lower: string -> string,
                                                appendSucceeds: bool) returns (r: ProcessOutcome)
      modifies this`memoirFile, this`lastExtractionTime, this`taskRunning
      ensures !taskRunning
      ensures r == BackgroundOutcome(conversation, ask, lower, appendSucceeds)
      ensures memoirFile == if r.Saved? then old(memoirFile) + [r.story] else old(memoirFile)
      ensures lastExtractionTime == if r.Saved? || r == NothingFound then Some(now) else old(lastExtractionTime)
    {
      taskRunning := false;
      ghost var expected := BackgroundOutcome(conversation, ask, lower, appendSucceeds);
      if conversation == [] {
        return NoHistory;
      }
      var text := FormatConversation(conversation);
      if |text| < MinHistoryLength {
        return TooShort;
      }
      var story := ExtractImportantInfo(text, ask, lower);
      if story != "" {
        if appendSucceeds {
          memoirFile := memoirFile + [story];
          lastExtractionTime := Some(now);
          return Saved(story);
        }
        return SaveFailed;
      }
      lastExtractionTime := Some(now);
      return NothingFound;
    }
  }
}
