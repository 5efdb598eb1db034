/**
 * The request handlers of the clone service (backend/server.py) over an
 * in-memory store: the two collections are sequences of documents, a
 * `find_one` is the first matching document, and the language model's
 * `send_message` is a function supplied by the caller.
 */
module Server {
  import opened Records
  import opened Text

  // ---------------------------------------------------------------------
  // Personality prompt

  /** The separator Python's `', '.join` puts between list entries. */
  const ListSeparator := ", "

  const PromptIntro := ", an AI clone with these characteristics:\n\n"

  const PromptClosing :=
    "You should respond naturally as this person would, incorporating their unique communication style, "
    + "interests, and personality traits. Keep responses conversational and authentic to their character. "
    + "Don't mention that you're an AI clone - just be this person."

  /** One line of the prompt that lists a persona's entries, in stored order. */
  function ListLine(heading: string, items: seq<string>): string {
    heading + ": " + Join(items, ListSeparator) + "\n"
  }

  function PromptHead(p: Personality): string {
    "You are " + p.name + PromptIntro + "Communication Style: " + p.communicationStyle + "\n"
  }

  function PromptTail(p: Personality): string {
    "Speaking Quirks: " + p.speakingQuirks + "\n" + "Background: " + p.background + "\n\n" + PromptClosing
  }

  /**
   * `generate_personality_prompt`: the system message of a persona's chat,
   * which always ends with the closing instructions.
   */
  function PersonalityPrompt(p: Personality): (r: string)
    ensures |PromptClosing| <= |r| && Occurs(r, PromptClosing, |r| - |PromptClosing|)
  {
    PromptHead(p)
    + ListLine("Personality Traits", p.personalityTraits)
    + ListLine("Interests", p.interests)
    + ListLine("Favorite Topics", p.favoriteTopics)
    + PromptTail(p)
  }

  /** `part` occurs in `s` starting at position `at`. */
  predicate Occurs(s: string, part: string, at: nat) {
    at + |part| <= |s| && s[at..at + |part|] == part
  }

  /** The middle part of a concatenation occurs right after the first part. */
  lemma OccursAfter(front: string, part: string, back: string)
    ensures Occurs(front + part + back, part, |front|)
  {
    assert (front + part + back)[|front|..|front| + |part|] == part;
  }

  /** The three lists of a five-part string occur one after the other. */
  lemma ListsInOrder(head: string, first: string, second: string, third: string, tail: string)
    ensures Occurs(head + first + second + third + tail, first, |head|)
    ensures Occurs(head + first + second + third + tail, second, |head| + |first|)
    ensures Occurs(head + first + second + third + tail, third, |head| + |first| + |second|)
  {
    var s := head + first + second + third + tail;
    OccursAfter(head, first, second + third + tail);
    assert head + first + (second + third + tail) == s;
    OccursAfter(head + first, second, third + tail);
    assert head + first + second + (third + tail) == s;
    OccursAfter(head + first + second, third, tail);
  }

  /** An occurrence inside a middle part is an occurrence in the whole, shifted by the first part. */
  lemma OccursShifted(front: string, middle: string, back: string, part: string, at: nat)
    requires Occurs(middle, part, at)
    ensures Occurs(front + middle + back, part, |front| + at)
  {
    SliceAfter(front, middle, at, at + |part|);
    SliceBefore(front + middle, back, |front| + at, |front| + at + |part|);
  }

  /**
   * A list line spells the entries in their stored order: entry `k` starts
   * `Offset(k)` characters after the heading and its ": " ...
   */
  lemma ListLineEntry(heading: string, items: seq<string>, k: nat)
    requires k < |items|
    ensures Occurs(ListLine(heading, items), items[k], |heading| + 2 + Offset(items, ListSeparator, k))
  {
    JoinPart(items, ListSeparator, k);
    OccursShifted(heading + ": ", Join(items, ListSeparator), "\n", items[k], Offset(items, ListSeparator, k));
  }

  /** ... and ", " follows every entry but the last. */
  lemma ListLineSeparator(heading: string, items: seq<string>, k: nat)
    requires k + 1 < |items|
    ensures Occurs(ListLine(heading, items), ListSeparator, |heading| + 2 + Offset(items, ListSeparator, k) + |items[k]|)
  {
    JoinSeparator(items, ListSeparator, k);
    OccursShifted(heading + ": ", Join(items, ListSeparator), "\n", ListSeparator, Offset(items, ListSeparator, k) + |items[k]|);
  }

  /** A string occurs at the start of anything it begins. */
  lemma OccursFirst(front: string, back: string)
    ensures Occurs(front + back, front, 0)
  {
    assert (front + back)[..|front|] == front;
  }

  /**
   * The prompt opens with the persona's name and carries the traits, the
   * interests and the favourite topics, each joined by ", ", on lines of
   * their own, in that order.
   */
  lemma PromptEmbedsLists(p: Personality)
    ensures Occurs(PersonalityPrompt(p), "You are " + p.name, 0)
    ensures |"You are " + p.name| < |PromptHead(p)|
    ensures Occurs(PersonalityPrompt(p), ListLine("Personality Traits", p.personalityTraits), |PromptHead(p)|)
    ensures Occurs(PersonalityPrompt(p), ListLine("Interests", p.interests),
                   |PromptHead(p)| + |ListLine("Personality Traits", p.personalityTraits)|)
    ensures Occurs(PersonalityPrompt(p), ListLine("Favorite Topics", p.favoriteTopics),
                   |PromptHead(p)| + |ListLine("Personality Traits", p.personalityTraits)|
                   + |ListLine("Interests", p.interests)|)
  {
    var head := PromptHead(p);
    var traits := ListLine("Personality Traits", p.personalityTraits);
    var interests := ListLine("Interests", p.interests);
    var topics := ListLine("Favorite Topics", p.favoriteTopics);
    var tail := PromptTail(p);
    ListsInOrder(head, traits, interests, topics, tail);
    var opening := "You are " + p.name;
    var s := opening + PromptIntro;
    OccursFirst(opening, PromptIntro);
    OccursExtended(s, "Communication Style: ", opening, 0);
    s := s + "Communication Style: ";
    OccursExtended(s, p.communicationStyle, opening, 0);
    s := s + p.communicationStyle;
    OccursExtended(s, "\n", opening, 0);
    s := s + "\n";
    assert s == head;
    OccursExtended(s, traits, opening, 0);
    s := s + traits;
    OccursExtended(s, interests, opening, 0);
    s := s + interests;
    OccursExtended(s, topics, opening, 0);
    s := s + topics;
    OccursExtended(s, tail, opening, 0);
  }

  /** An occurrence stays where it is when more text is appended. */
  lemma OccursExtended(s: string, back: string, part: string, at: nat)
    requires Occurs(s, part, at)
    ensures Occurs(s + back, part, at)
  {
    SliceBefore(s, back, at, at + |part|);
  }

  // ---------------------------------------------------------------------
  // Conversation assembly

  /** The number of messages `generate_conversation` produces: an opener and seven replies. */
  const TurnCount := 8

  /** The topic a conversation request carries: left out, sent as `null`, or a string. */
  datatype TopicField = Omitted | Null | Given(text: string)

  datatype ConversationRequest = ConversationRequest(user1Id: string, user2Id: string, topic: TopicField)

  const DefaultTopic := "general chat"

  /** The request's topic after Pydantic applies the field's default. */
  function RequestTopic(field: TopicField): (topic: Option<string>)
    ensures field.Omitted? ==> topic == Some(DefaultTopic)
    ensures field.Null? ==> topic == None
    ensures field.Given? ==> topic == Some(field.text)
  {
    match field
    case Omitted => Some(DefaultTopic)
    case Null => None
    case Given(text) => Some(text)
  }

  /** How Python's f-string renders an optional string. */
  function TopicText(topic: Option<string>): string {
    match topic
    case Some(text) => text
    case None => "None"
  }

  /** The user message sent to a chat: the conversation starter, or a reply to the last message. */
  datatype Prompt = Starter(topic: string) | ReplyTo(last: string)

  const StarterBefore := "Start a casual conversation " + "with someone about "
  const StarterAfter :=
    ". Make it natural and true to your personality. Just say something to begin the conversation"
    + " - don't introduce yourself formally."
  const ReplyBefore := "Respond naturally to this message: '"
  const ReplyAfter := "' - keep the conversation flowing and stay in character."

  /** The text of a prompt, as the f-strings of `generate_conversation` spell it. */
  function PromptText(prompt: Prompt): string {
    match prompt
    case Starter(topic) => StarterBefore + topic + StarterAfter
    case ReplyTo(last) => ReplyBefore + last + ReplyAfter
  }

  /**
   * The opening prompt spells the request's topic: a given topic as sent,
   * an omitted one as "general chat", and one sent as `null` as "None".
   */
  lemma StarterSpellsTopic(field: TopicField)
    ensures field.Given? ==>
      PromptText(NextPrompt(RequestTopic(field), [])) == StarterBefore + field.text + StarterAfter
    ensures field.Omitted? ==>
      PromptText(NextPrompt(RequestTopic(field), [])) == StarterBefore + DefaultTopic + StarterAfter
    ensures field.Null? ==>
      PromptText(NextPrompt(RequestTopic(field), [])) == StarterBefore + "None" + StarterAfter
  {
  }

  /** A reply prompt quotes the message it answers, right after its opening words. */
  lemma ReplyQuotesMessage(last: string)
    ensures Occurs(PromptText(ReplyTo(last)), last, |ReplyBefore|)
  {
    OccursAfter(ReplyBefore, last, ReplyAfter);
  }

  /**
   * Different prompts have different texts, so a model of `send_message`
   * that reads the `Prompt` instead of its text loses nothing.
   */
  lemma PromptTextInjective(p: Prompt, q: Prompt)
    ensures PromptText(p) == PromptText(q) ==> p == q
  {
    if PromptText(p) == PromptText(q) {
      PromptTextOpens(p);
      PromptTextOpens(q);
      if p.Starter? && q.Starter? {
        SameFrame(StarterBefore, p.topic, q.topic, StarterAfter);
      } else if p.ReplyTo? && q.ReplyTo? {
        SameFrame(ReplyBefore, p.last, q.last, ReplyAfter);
      }
    }
  }

  /** A starter prompt opens with 'S', a reply prompt with 'R'. */
  lemma PromptTextOpens(p: Prompt)
    ensures |PromptText(p)| > 0 && PromptText(p)[0] == if p.Starter? then 'S' else 'R'
  {
    assert StarterBefore[0] == 'S' && ReplyBefore[0] == 'R';
  }

  /** What lies between a fixed opening and a fixed ending is determined by the whole. */
  lemma SameFrame(before: string, x: string, y: string, after: string)
    requires before + x + after == before + y + after
    ensures x == y
  {
    var s := before + x + after;
    assert |x| == |y|;
    assert x == s[|before|..|before| + |x|];
    assert y == (before + y + after)[|before|..|before| + |y|];
  }

  /** A language-model chat session: its session id and the persona of its system message. */
  datatype Chat = Chat(sessionId: string, persona: Personality)

  /** The system message a chat was created with. */
  function SystemMessage(chat: Chat): string {
    PersonalityPrompt(chat.persona)
  }

  /**
   * The chat `generate_conversation` opens for a user: session
   * "clone_" + the user id, with the user's persona prompt as system message.
   */
  function ChatFor(u: User): (chat: Chat)
    ensures SystemMessage(chat) == PersonalityPrompt(u.personality)
    ensures |"clone_"| <= |chat.sessionId|
    ensures chat.sessionId[..|"clone_"|] == "clone_" && chat.sessionId[|"clone_"|..] == u.userId
  {
    Chat("clone_" + u.userId, u.personality)
  }

  /** Users with different ids get different chat sessions. */
  lemma SessionsDiffer(u: User, v: User)
    ensures u.userId != v.userId ==> ChatFor(u).sessionId != ChatFor(v).sessionId
  {
    var a, b := ChatFor(u).sessionId, ChatFor(v).sessionId;
    if a == b {
      assert a[|"clone_"|..] == b[|"clone_"|..];
    }
  }

  /**
   * `send_message`: the reply a chat gives to a prompt as the conversation's
   * `turn`-th message, or `None` when the call raises.
   */
  type Llm = (Chat, nat, Prompt) -> Option<string>

  /** The chat that speaks turn `k`: the first user's on even turns, the second's on odd ones. */
  function ChatAt(c1: Chat, c2: Chat, k: nat): Chat {
    if k % 2 == 0 then c1 else c2
  }

  /** The prompt of the turn after `earlier`: the starter, then a reply to the last message. */
  function NextPrompt(topic: Option<string>, earlier: seq<string>): Prompt {
    if earlier == [] then Starter(TopicText(topic)) else ReplyTo(earlier[|earlier| - 1])
  }

  /** Turn `k` of `texts` is what its chat answers to the prompt built from the turns before it. */
  predicate AnswersAt(c1: Chat, c2: Chat, topic: Option<string>, send: Llm, texts: seq<string>, k: nat)
    requires k < |texts|
  {
    send(ChatAt(c1, c2, k), k, NextPrompt(topic, texts[..k])) == Some(texts[k])
  }

  /** Every turn of `texts` answers the turn before it (the first answers the starter). */
  predicate Answers(c1: Chat, c2: Chat, topic: Option<string>, send: Llm, texts: seq<string>) {
    forall k :: 0 <= k < |texts| ==> AnswersAt(c1, c2, topic, send, texts, k)
  }

  /** The texts of the first `n` turns, or `None` when one of their calls raises. */
  function Replies(c1: Chat, c2: Chat, topic: Option<string>, send: Llm, n: nat): (r: Option<seq<string>>)
    ensures r.Some? ==> |r.value| == n
  {
    if n == 0 then Some([])
    else
      match Replies(c1, c2, topic, send, n - 1)
      case None => None
      case Some(prev) =>
        match send(ChatAt(c1, c2, n - 1), n - 1, NextPrompt(topic, prev))
        case None => None
        case Some(text) => Some(prev + [text])
  }

  /** Whether turn `k` answers depends only on the turns up to `k`. */
  lemma AnswersAtPrefix(c1: Chat, c2: Chat, topic: Option<string>, send: Llm, texts: seq<string>, m: nat, k: nat)
    requires k < m <= |texts|
    ensures AnswersAt(c1, c2, topic, send, texts[..m], k) == AnswersAt(c1, c2, topic, send, texts, k)
  {
    assert texts[..m][..k] == texts[..k];
  }

  /** What `Replies` returns is a transcript in which every message answers the one before it. */
  lemma {:induction false} RepliesAnswer(c1: Chat, c2: Chat, topic: Option<string>, send: Llm, n: nat)
    ensures Replies(c1, c2, topic, send, n).Some? ==> Answers(c1, c2, topic, send, Replies(c1, c2, topic, send, n).value)
  {
    if n > 0 && Replies(c1, c2, topic, send, n).Some? {
      RepliesAnswer(c1, c2, topic, send, n - 1);
      var texts := Replies(c1, c2, topic, send, n).value;
      var prev := Replies(c1, c2, topic, send, n - 1).value;
      assert texts[..n - 1] == prev;
      forall k | 0 <= k < n
        ensures AnswersAt(c1, c2, topic, send, texts, k)
      {
        if k < n - 1 {
          AnswersAtPrefix(c1, c2, topic, send, texts, n - 1, k);
        }
      }
    }
  }

  /** Any transcript in which every message answers the one before it is what `Replies` returns. */
  lemma {:induction false} AnswersAreReplies(c1: Chat, c2: Chat, topic: Option<string>, send: Llm, texts: seq<string>)
    requires Answers(c1, c2, topic, send, texts)
    ensures Replies(c1, c2, topic, send, |texts|) == Some(texts)
  {
    if texts != [] {
      var n := |texts|;
      var prev := texts[..n - 1];
      forall k | 0 <= k < n - 1
        ensures AnswersAt(c1, c2, topic, send, prev, k)
      {
        AnswersAtPrefix(c1, c2, topic, send, texts, n - 1, k);
      }
      AnswersAreReplies(c1, c2, topic, send, prev);
      assert AnswersAt(c1, c2, topic, send, texts, n - 1);
      assert prev + [texts[n - 1]] == texts;
    }
  }

  /** One more turn: `Replies` extends a successful prefix by the next call's answer. */
  lemma RepliesExtend(c1: Chat, c2: Chat, topic: Option<string>, send: Llm, n: nat, prev: seq<string>)
    requires Replies(c1, c2, topic, send, n) == Some(prev)
    ensures Replies(c1, c2, topic, send, n + 1) ==
      match send(ChatAt(c1, c2, n), n, NextPrompt(topic, prev))
      case None => None
      case Some(text) => Some(prev + [text])
  {
  }

  /** Once a turn's call raises, every longer conversation fails too. */
  lemma {:induction false} RepliesStayFailed(c1: Chat, c2: Chat, topic: Option<string>, send: Llm, m: nat, n: nat)
    requires m <= n && Replies(c1, c2, topic, send, m).None?
    ensures Replies(c1, c2, topic, send, n).None?
    decreases n - m
  {
    if m < n {
      RepliesStayFailed(c1, c2, topic, send, m + 1, n);
    }
  }

  /**
   * The messages `generate_conversation` builds from the turn texts: turn
   * `k` is spoken by `name1` when `k` is even and by `name2` when it is
   * odd, and stamped with the clock reading `now(k)`.
   */
  function Transcript(name1: string, name2: string, texts: seq<string>, now: nat -> string): (ms: seq<Message>)
    ensures |ms| == |texts|
  {
    if texts == [] then []
    else
      var k := |texts| - 1;
      Transcript(name1, name2, texts[..k], now) + [Message(if k % 2 == 0 then name1 else name2, texts[k], now(k))]
  }

  /** Appending a turn appends its message. */
  lemma TranscriptStep(name1: string, name2: string, texts: seq<string>, now: nat -> string, text: string)
    ensures Transcript(name1, name2, texts + [text], now) ==
            Transcript(name1, name2, texts, now) + [Message(if |texts| % 2 == 0 then name1 else name2, text, now(|texts|))]
  {
    assert (texts + [text])[..|texts|] == texts;
  }

  /** Message `k` of a transcript carries turn `k`, its alternating speaker and its timestamp. */
  lemma {:induction false} TranscriptAt(name1: string, name2: string, texts: seq<string>, now: nat -> string, k: nat)
    requires k < |texts|
    ensures Transcript(name1, name2, texts, now)[k] == Message(if k % 2 == 0 then name1 else name2, texts[k], now(k))
  {
    var n := |texts| - 1;
    if k < n {
      TranscriptAt(name1, name2, texts[..n], now, k);
    }
  }

  /** `messages` are the conversation `generate_conversation` assembles for these two users. */
  predicate Generated(user1: User, user2: User, topic: Option<string>, send: Llm, now: nat -> string, messages: seq<Message>) {
    var replies := Replies(ChatFor(user1), ChatFor(user2), topic, send, TurnCount);
    && replies.Some?
    && messages == Transcript(user1.personality.name, user2.personality.name, replies.value, now)
  }

  /**
   * A generated conversation has eight messages; message `k` is spoken by
   * the first persona when `k` is even and by the second when it is odd;
   * the first answers the topic's starter prompt from the first user's
   * chat, and every later one is what the speaker's chat replied to the
   * message right before it.
   */
  lemma {:induction false} GeneratedShape(user1: User, user2: User, topic: Option<string>, send: Llm,
                                          now: nat -> string, messages: seq<Message>)
    requires Generated(user1, user2, topic, send, now, messages)
    ensures |messages| == TurnCount
    ensures forall k :: 0 <= k < |messages| ==>
      messages[k].speaker == (if k % 2 == 0 then user1.personality.name else user2.personality.name)
      && messages[k].timestamp == now(k)
    ensures send(ChatFor(user1), 0, Starter(TopicText(topic))) == Some(messages[0].message)
    ensures forall k :: 0 < k < |messages| ==>
      send(ChatAt(ChatFor(user1), ChatFor(user2), k), k, ReplyTo(messages[k - 1].message)) == Some(messages[k].message)
  {
    var c1, c2 := ChatFor(user1), ChatFor(user2);
    var name1, name2 := user1.personality.name, user2.personality.name;
    var replies := Replies(c1, c2, topic, send, TurnCount).value;
    RepliesAnswer(c1, c2, topic, send, TurnCount);
    forall k | 0 <= k < |messages|
      ensures messages[k] == Message(if k % 2 == 0 then name1 else name2, replies[k], now(k))
    {
      TranscriptAt(name1, name2, replies, now, k);
    }
    assert AnswersAt(c1, c2, topic, send, replies, 0);
    forall k | 0 < k < |messages|
      ensures send(ChatAt(c1, c2, k), k, ReplyTo(messages[k - 1].message)) == Some(messages[k].message)
    {
      assert AnswersAt(c1, c2, topic, send, replies, k);
      assert replies[..k][k - 1] == replies[k - 1];
    }
  }

  /** Every turn so far answers, and the call for the next turn raises. */
  predicate Stops(c1: Chat, c2: Chat, topic: Option<string>, send: Llm, texts: seq<string>) {
    && Answers(c1, c2, topic, send, texts)
    && send(ChatAt(c1, c2, |texts|), |texts|, NextPrompt(topic, texts)) == None
  }

  /** Extending an answering transcript by the next call's answer keeps it answering. */
  lemma AnswersStep(c1: Chat, c2: Chat, topic: Option<string>, send: Llm, texts: seq<string>, text: string)
    requires Answers(c1, c2, topic, send, texts)
    requires send(ChatAt(c1, c2, |texts|), |texts|, NextPrompt(topic, texts)) == Some(text)
    ensures Answers(c1, c2, topic, send, texts + [text])
  {
    var t := texts + [text];
    forall k | 0 <= k < |t|
      ensures AnswersAt(c1, c2, topic, send, t, k)
    {
      if k < |texts| {
        assert t[..k] == texts[..k];
        assert AnswersAt(c1, c2, topic, send, texts, k);
      } else {
        assert t[..k] == texts;
      }
    }
  }

  /** A conversation that stops before turn `n` has no `n` replies. */
  lemma StopsFail(c1: Chat, c2: Chat, topic: Option<string>, send: Llm, texts: seq<string>, n: nat)
    requires Stops(c1, c2, topic, send, texts) && |texts| < n
    ensures Replies(c1, c2, topic, send, n).None?
  {
    AnswersAreReplies(c1, c2, topic, send, texts);
    RepliesExtend(c1, c2, topic, send, |texts|, texts);
    RepliesStayFailed(c1, c2, topic, send, |texts| + 1, n);
  }

  /** Which user's chat speaks turn `k`: the first on even turns, the second on odd ones. */
  function SpeakerIndex(k: nat): nat {
    if k % 2 == 0 then 1 else 2
  }

  /** The speakers of consecutive turns alternate. */
  lemma NextSpeaker(k: nat)
    ensures SpeakerIndex(k) == 1 || SpeakerIndex(k) == 2
    ensures SpeakerIndex(k + 1) == 3 - SpeakerIndex(k)
  {
  }

  /**
   * `generate_conversation`: the opener from the first user's chat, then
   * seven replies from alternating chats, each prompted with the message
   * before it; `now(k)` is the clock reading taken for message `k`.
   * `None` stands for an exception raised by `send_message`.
   */
  method GenerateConversation(user1: User, user2: User, topic: Option<string>, send: Llm, now: nat -> string)
    returns (r: Option<seq<Message>>)
    ensures r.Some? <==> Replies(ChatFor(user1), ChatFor(user2), topic, send, TurnCount).Some?
    ensures r.Some? ==> Generated(user1, user2, topic, send, now, r.value)
  {
    var chat1, chat2 := ChatFor(user1), ChatFor(user2);
    var name1, name2 := user1.personality.name, user2.personality.name;
    var response1 := send(chat1, 0, Starter(TopicText(topic)));
    assert NextPrompt(topic, []) == Starter(TopicText(topic)) && ChatAt(chat1, chat2, 0) == chat1;
    if response1.None? {
      StopsFail(chat1, chat2, topic, send, [], TurnCount);
      return None;
    }
    var conversation := [Message(name1, response1.value, now(0))];
    ghost var texts := [response1.value];
    AnswersStep(chat1, chat2, topic, send, [], response1.value);
    TranscriptStep(name1, name2, [], now, response1.value);
    r, texts := Alternate(chat1, chat2, name1, name2, topic, send, now, texts, conversation, response1.value);
    if r.Some? {
      AnswersAreReplies(chat1, chat2, topic, send, texts);
    } else {
      StopsFail(chat1, chat2, topic, send, texts, TurnCount);
    }
  }

  /**
   * The `for i in range(7)` loop of `generate_conversation`: starting from
   * the opener, the chats take turns replying to the last message. `texts`
   * are the turns produced: all eight, or those before the call that
   * raised.
   */
  method Alternate(chat1: Chat, chat2: Chat, name1: string, name2: string, topic: Option<string>,
                   send: Llm, now: nat -> string, ghost opening: seq<string>, first: seq<Message>, response1: string)
    returns (r: Option<seq<Message>>, ghost texts: seq<string>)
    requires opening == [response1] && Answers(chat1, chat2, topic, send, opening)
    requires first == Transcript(name1, name2, opening, now)
    ensures r.Some? ==> |texts| == TurnCount && Answers(chat1, chat2, topic, send, texts)
    ensures r.Some? ==> r.value == Transcript(name1, name2, texts, now)
    ensures r.None? ==> |texts| < TurnCount && Stops(chat1, chat2, topic, send, texts)
  {
    texts := opening;
    var conversation := first;
    var lastMessage := response1;
    var currentSpeaker, currentName := 2, name2;
    for i := 0 to 7
      invariant |texts| == i + 1
      invariant Answers(chat1, chat2, topic, send, texts)
      invariant conversation == Transcript(name1, name2, texts, now)
      invariant lastMessage == texts[i]
      invariant currentSpeaker == SpeakerIndex(i + 1)
      invariant currentName == (if currentSpeaker == 1 then name1 else name2)
    {
      var chat := if currentSpeaker == 2 then chat2 else chat1;
      var response := send(chat, i + 1, ReplyTo(lastMessage));
      assert chat == ChatAt(chat1, chat2, i + 1) && ReplyTo(lastMessage) == NextPrompt(topic, texts);
      if response.None? {
        return None, texts;
      }
      TranscriptStep(name1, name2, texts, now, response.value);
      AnswersStep(chat1, chat2, topic, send, texts, response.value);
      NextSpeaker(i + 1);
      conversation := conversation + [Message(currentName, response.value, now(i + 1))];
      texts := texts + [response.value];
      lastMessage := response.value;
      if currentSpeaker == 2 {
        currentSpeaker, currentName := 1, name1;
      } else {
        currentSpeaker, currentName := 2, name2;
      }
    }
    r := Some(conversation);
  }

  // ---------------------------------------------------------------------
  // Lookups in the users collection

  /** A `find_one` filter on the users collection. */
  datatype Query = UserIdIs(userId: string) | UsernameIs(username: string) {
    predicate Matches(u: User) {
      match this
      case UserIdIs(id) => u.userId == id
      case UsernameIs(name) => u.username == name
    }
  }

  /** Position of the first user the query matches, or `|users|` when none does. */
  function FirstMatch(users: seq<User>, q: Query): (i: nat)
    ensures i <= |users|
    ensures i < |users| ==> q.Matches(users[i])
    ensures forall j :: 0 <= j < i ==> !q.Matches(users[j])
  {
    if users == [] then 0
    else if q.Matches(users[0]) then 0
    else 1 + FirstMatch(users[1..], q)
  }

  /** `find_one`: the first matching user document, if any. */
  function FindOne(users: seq<User>, q: Query): (r: Option<User>)
    ensures r.None? <==> forall j :: 0 <= j < |users| ==> !q.Matches(users[j])
    ensures r.Some? ==> exists i :: 0 <= i < |users| && users[i] == r.value && q.Matches(r.value)
  {
    var i := FirstMatch(users, q);
    if i < |users| then Some(users[i]) else None
  }

  /** Some stored user has this id. */
  predicate Known(users: seq<User>, userId: string) {
    exists i :: 0 <= i < |users| && users[i].userId == userId
  }

  predicate UniqueUsernames(users: seq<User>) {
    forall i, j :: 0 <= i < j < |users| ==> users[i].username != users[j].username
  }

  /** The username listed for a participant: the stored user's, or "Unknown". */
  function UsernameOrUnknown(users: seq<User>, userId: string): (name: string)
    ensures Known(users, userId) ==>
      exists i :: 0 <= i < |users| && users[i].userId == userId && users[i].username == name
    ensures !Known(users, userId) ==> name == "Unknown"
  {
    match FindOne(users, UserIdIs(userId))
    case Some(u) => u.username
    case None => "Unknown"
  }

  /** A stored conversation with its `participants` filled in. */
  function Annotate(users: seq<User>, c: Conversation): (r: Listed)
    ensures r.conversation == c
  {
    Listed(c, Participants(UsernameOrUnknown(users, c.user1Id), UsernameOrUnknown(users, c.user2Id)))
  }

  /**
   * The participants listed for a conversation whose users are stored are
   * those users' usernames, never the "Unknown" fallback; a missing user is
   * listed as "Unknown".
   */
  lemma AnnotateNamesParticipants(users: seq<User>, c: Conversation)
    ensures Known(users, c.user1Id) ==>
      exists i :: 0 <= i < |users| && users[i].userId == c.user1Id && users[i].username == Annotate(users, c).participants.user1
    ensures Known(users, c.user2Id) ==>
      exists i :: 0 <= i < |users| && users[i].userId == c.user2Id && users[i].username == Annotate(users, c).participants.user2
    ensures !Known(users, c.user1Id) ==> Annotate(users, c).participants.user1 == "Unknown"
    ensures !Known(users, c.user2Id) ==> Annotate(users, c).participants.user2 == "Unknown"
  {
  }

  /** The conversation has this user as one of its two participants. */
  predicate Involves(c: Conversation, userId: string) {
    c.user1Id == userId || c.user2Id == userId
  }

  /** The `$or` query of `get_user_conversations`: the stored conversations involving a user, in stored order. */
  function Involving(cs: seq<Conversation>, userId: string): (r: seq<Conversation>)
    ensures |r| <= |cs|
    ensures forall c :: c in r <==> c in cs && Involves(c, userId)
  {
    if cs == [] then []
    else (if Involves(cs[0], userId) then [cs[0]] else []) + Involving(cs[1..], userId)
  }

  /** Filtering distributes over concatenation, so it keeps the stored order. */
  lemma {:induction false} InvolvingAppend(a: seq<Conversation>, b: seq<Conversation>, userId: string)
    ensures Involving(a + b, userId) == Involving(a, userId) + Involving(b, userId)
  {
    if a != [] {
      assert (a + b)[1..] == a[1..] + b;
      InvolvingAppend(a[1..], b, userId);
    } else {
      assert a + b == b;
    }
  }

  // ---------------------------------------------------------------------
  // The store and its request handlers

  datatype UserCreated = UserCreated(message: string, userId: string)

  datatype ConversationCreated = ConversationCreated(conversationId: string, messages: seq<Message>, participants: Participants)

  /** The `users` and `conversations` collections. */
  class Store {
    var users: seq<User>
    var conversations: seq<Conversation>

    /**
     * What the handlers keep true: usernames are unique, and every stored
     * conversation has its two users on record and eight messages.
     */
    ghost predicate Valid()
      reads this
    {
      && UniqueUsernames(users)
      && forall i :: 0 <= i < |conversations| ==>
           Known(users, conversations[i].user1Id) && Known(users, conversations[i].user2Id)
           && |conversations[i].messages| == TurnCount
    }

    constructor ()
      ensures users == [] && conversations == []
      ensures Valid()
    {
      users, conversations := [], [];
    }

    /**
     * `create_user`: a taken username is refused before anything is
     * inserted, but the `HTTPException(400)` raised for it is caught by the
     * handler's own `except Exception` and re-raised with status 500.
     */
    method CreateUser(user: User) returns (r: Reply<UserCreated>)
      modifies this
      ensures conversations == old(conversations)
      ensures (exists i :: 0 <= i < |old(users)| && old(users)[i].username == user.username) ==>
        users == old(users) && r == Error(500, "Error creating user", Raised(400, "Username already exists"))
      ensures (forall i :: 0 <= i < |old(users)| ==> old(users)[i].username != user.username) ==>
        users == old(users) + [user] && r == Ok(UserCreated("User created successfully", user.userId))
      ensures old(Valid()) ==> Valid()
    {
      var existing := FindOne(users, UsernameIs(user.username));
      if existing.Some? {
        return Error(500, "Error creating user", Raised(400, "Username already exists"));
      }
      ghost var before := users;
      users := users + [user];
      forall i | 0 <= i < |conversations|
        ensures Known(before, conversations[i].user1Id) ==> Known(users, conversations[i].user1Id)
        ensures Known(before, conversations[i].user2Id) ==> Known(users, conversations[i].user2Id)
      {
        assert forall j :: 0 <= j < |before| ==> users[j] == before[j];
      }
      r := Ok(UserCreated("User created successfully", user.userId));
    }

    /** `get_all_users`: every stored user, in stored order. */
    method GetAllUsers() returns (r: Reply<seq<User>>)
      ensures r.Ok? && r.body == users
    {
      r := Ok(users);
    }

    /**
     * `get_user`: the stored user with this id; a missing id raises 404,
     * which the handler's `except Exception` turns into 500.
     */
    method GetUser(userId: string) returns (r: Reply<User>)
      ensures r.Ok? <==> Known(users, userId)
      ensures r.Ok? ==> r.body.userId == userId && r.body in users
      ensures r.Error? ==> r == Error(500, "Error fetching user", Raised(404, "User not found"))
    {
      var user := FindOne(users, UserIdIs(userId));
      if user.None? {
        return Error(500, "Error fetching user", Raised(404, "User not found"));
      }
      r := Ok(user.value);
    }

    /**
     * `create_conversation`: both users must be stored; then the
     * conversation is generated and inserted as exactly one document.
     * `conversationId` and `createdAt` stand for `uuid4()` and the clock.
     * A missing user raises 404 and a failing language model raises; the
     * handler's `except Exception` turns both into 500.
     */
    method CreateConversation(request: ConversationRequest, send: Llm, now: nat -> string,
                              conversationId: string, createdAt: string)
      returns (r: Reply<ConversationCreated>)
      modifies this
      ensures users == old(users)
      ensures !Known(users, request.user1Id) || !Known(users, request.user2Id) ==>
        conversations == old(conversations)
        && r == Error(500, "Error generating conversation", Raised(404, "One or both users not found"))
      ensures r.Error? ==> conversations == old(conversations) && r.status == 500
      ensures r.Ok? ==>
        && Known(users, request.user1Id) && Known(users, request.user2Id)
        && var user1 := FindOne(users, UserIdIs(request.user1Id)).value;
        && var user2 := FindOne(users, UserIdIs(request.user2Id)).value;
        && conversations == old(conversations) + [Conversation(conversationId, request.user1Id, request.user2Id,
                                                   RequestTopic(request.topic), r.body.messages, createdAt)]
        && Generated(user1, user2, RequestTopic(request.topic), send, now, r.body.messages)
        && r.body.conversationId == conversationId
        && r.body.participants == Participants(user1.username, user2.username)
      ensures Known(users, request.user1Id) && Known(users, request.user2Id) ==>
        (r.Ok? <==> Replies(ChatFor(FindOne(users, UserIdIs(request.user1Id)).value),
                            ChatFor(FindOne(users, UserIdIs(request.user2Id)).value),
                            RequestTopic(request.topic), send, TurnCount).Some?)
      ensures old(Valid()) ==> Valid()
    {
      var found1 := FindOne(users, UserIdIs(request.user1Id));
      var found2 := FindOne(users, UserIdIs(request.user2Id));
      if found1.None? || found2.None? {
        return Error(500, "Error generating conversation", Raised(404, "One or both users not found"));
      }
      var user1, user2 := found1.value, found2.value;
      var topic := RequestTopic(request.topic);
      var messages := GenerateConversation(user1, user2, topic, send, now);
      if messages.None? {
        return Error(500, "Error generating conversation", Fault);
      }
      var doc := Conversation(conversationId, request.user1Id, request.user2Id, topic, messages.value, createdAt);
      conversations := conversations + [doc];
      r := Ok(ConversationCreated(conversationId, messages.value, Participants(user1.username, user2.username)));
    }

    /** The loop both listing handlers run: fill in each conversation's `participants`. */
    method AnnotateAll(found: seq<Conversation>) returns (listed: seq<Listed>)
      ensures |listed| == |found|
      ensures forall i :: 0 <= i < |found| ==> listed[i] == Annotate(users, found[i])
    {
      listed := [];
      for i := 0 to |found|
        invariant |listed| == i
        invariant forall k :: 0 <= k < i ==> listed[k] == Annotate(users, found[k])
      {
        var conv := found[i];
        var user1 := FindOne(users, UserIdIs(conv.user1Id));
        var user2 := FindOne(users, UserIdIs(conv.user2Id));
        var participants := Participants(
          if user1.Some? then user1.value.username else "Unknown",
          if user2.Some? then user2.value.username else "Unknown");
        listed := listed + [Listed(conv, participants)];
      }
    }

    /** `get_all_conversations`: every stored conversation, in order, with its participants. */
    method GetAllConversations() returns (r: Reply<seq<Listed>>)
      ensures r.Ok? && |r.body| == |conversations|
      ensures forall i :: 0 <= i < |conversations| ==>
        r.body[i].conversation == conversations[i] && r.body[i] == Annotate(users, conversations[i])
    {
      var listed := AnnotateAll(conversations);
      r := Ok(listed);
    }

    /** `get_user_conversations`: the stored conversations involving the user, in order, with their participants. */
    method GetUserConversations(userId: string) returns (r: Reply<seq<Listed>>)
      ensures r.Ok? && |r.body| == |Involving(conversations, userId)|
      ensures forall i :: 0 <= i < |r.body| ==>
        Involves(r.body[i].conversation, userId) && r.body[i].conversation in conversations
      ensures forall c :: c in conversations && Involves(c, userId) ==>
        exists i :: 0 <= i < |r.body| && r.body[i].conversation == c
      ensures forall i :: 0 <= i < |r.body| ==> r.body[i] == Annotate(users, Involving(conversations, userId)[i])
    {
      var found := Involving(conversations, userId);
      var listed := AnnotateAll(found);
      r := Ok(listed);
    }
  }
}
