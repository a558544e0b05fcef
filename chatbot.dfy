/**
 * The chat assistant: the user's message is appended at once; after a delay
 * a canned reply, chosen by keywords in the message, is appended. The delay
 * is not modelled: sending and replying are two separate steps, and the
 * values the delayed reply captured at send time travel in a `PendingReply`.
 */
module Chatbot {
  import opened Wrappers
  import Text

  datatype Sender = User | Bot

  datatype Message = Message(id: int, content: string, sender: Sender)

  /** The reply groups, and `Other` for the fallback reply. */
  datatype Topic = Disease | Fertilizer | Weather | Market | Greeting | Other

  /** The keywords that select each reply group. */
  function Keywords(t: Topic): seq<string>
  {
    match t
    case Disease => ["disease", "pest", "insect"]
    case Fertilizer => ["fertilizer", "nutrient"]
    case Weather => ["weather", "rain", "forecast"]
    case Market => ["price", "market", "sell"]
    case Greeting => ["hello", "hi", "hey"]
    case Other => []
  }

  /** The order in which the groups are tried; the fallback comes last. */
  function Priority(t: Topic): nat
  {
    match t
    case Disease => 0
    case Fertilizer => 1
    case Weather => 2
    case Market => 3
    case Greeting => 4
    case Other => 5
  }

  /** Some keyword in `keywords` occurs in `text`. */
  predicate AnyOccurs(text: string, keywords: seq<string>)
    decreases |keywords|
  {
    keywords != [] && (Text.Contains(text, keywords[0]) || AnyOccurs(text, keywords[1..]))
  }

  /** Some keyword of group `t` occurs in `text`. */
  predicate Mentions(text: string, t: Topic)
  {
    AnyOccurs(text, Keywords(t))
  }

  /** `Mentions`, group by group, as the chain of `includes` tests the page writes. */
  lemma MentionsByGroup(text: string)
    ensures Mentions(text, Disease) == (Text.Contains(text, "disease") || Text.Contains(text, "pest") || Text.Contains(text, "insect"))
    ensures Mentions(text, Fertilizer) == (Text.Contains(text, "fertilizer") || Text.Contains(text, "nutrient"))
    ensures Mentions(text, Weather) == (Text.Contains(text, "weather") || Text.Contains(text, "rain") || Text.Contains(text, "forecast"))
    ensures Mentions(text, Market) == (Text.Contains(text, "price") || Text.Contains(text, "market") || Text.Contains(text, "sell"))
    ensures Mentions(text, Greeting) == (Text.Contains(text, "hello") || Text.Contains(text, "hi") || Text.Contains(text, "hey"))
    ensures !Mentions(text, Other)
  {
    Unfold3(text, Keywords(Disease));
    Unfold2(text, Keywords(Fertilizer));
    Unfold3(text, Keywords(Weather));
    Unfold3(text, Keywords(Market));
    Unfold3(text, Keywords(Greeting));
  }

  lemma Unfold2(text: string, ks: seq<string>)
    requires |ks| == 2
    ensures AnyOccurs(text, ks) == (Text.Contains(text, ks[0]) || Text.Contains(text, ks[1]))
  {
    var tail := ks[1..];
    assert tail[0] == ks[1] && tail[1..] == [];
    assert !AnyOccurs(text, tail[1..]);
    assert AnyOccurs(text, tail) == (Text.Contains(text, ks[1]) || AnyOccurs(text, tail[1..]));
  }

  lemma Unfold3(text: string, ks: seq<string>)
    requires |ks| == 3
    ensures AnyOccurs(text, ks) == (Text.Contains(text, ks[0]) || Text.Contains(text, ks[1]) || Text.Contains(text, ks[2]))
  {
    assert ks[1..][0] == ks[1] && ks[1..][1] == ks[2];
    Unfold2(text, ks[1..]);
  }

  /** The reply group `sendMessage` picks for a message, by the page's chain of tests. */
  function Classify(message: string): Topic
  {
    var lower := Text.Lower(message);
    if Text.Contains(lower, "disease") || Text.Contains(lower, "pest") || Text.Contains(lower, "insect") then
      Disease
    else if Text.Contains(lower, "fertilizer") || Text.Contains(lower, "nutrient") then
      Fertilizer
    else if Text.Contains(lower, "weather") || Text.Contains(lower, "rain") || Text.Contains(lower, "forecast") then
      Weather
    else if Text.Contains(lower, "price") || Text.Contains(lower, "market") || Text.Contains(lower, "sell") then
      Market
    else if Text.Contains(lower, "hello") || Text.Contains(lower, "hi") || Text.Contains(lower, "hey") then
      Greeting
    else
      Other
  }

  /**
   * The chosen group is the first group, in priority order, with a keyword
   * that occurs in the lower-cased message; it is `Other` exactly when no
   * keyword occurs.
   */
  lemma ClassifyFirstMatch(message: string)
    ensures var t := Classify(message);
      && (t != Other ==> Mentions(Text.Lower(message), t))
      && (forall u :: Priority(u) < Priority(t) ==> !Mentions(Text.Lower(message), u))
      && (t == Other <==> forall u :: !Mentions(Text.Lower(message), u))
  {
    var lower := Text.Lower(message);
    var t := Classify(message);
    MentionsByGroup(lower);
    forall u | Priority(u) < Priority(t) ensures !Mentions(lower, u) {
      match u
      case Disease =>
      case Fertilizer =>
      case Weather =>
      case Market =>
      case Greeting =>
      case Other =>
    }
  }

  /** Two messages that lower-case alike get the same reply. */
  lemma ClassifyIgnoresCase(message: string)
    ensures Classify(Text.Lower(message)) == Classify(message)
  {
    Text.LowerIdempotent(message);
  }

  /** The first-match rule determines the group: any group that satisfies it is the one chosen. */
  lemma ClassifyIsFirstMatch(message: string, t: Topic)
    requires t != Other ==> Mentions(Text.Lower(message), t)
    requires forall u :: Priority(u) < Priority(t) ==> !Mentions(Text.Lower(message), u)
    ensures Classify(message) == t
  {
    var c := Classify(message);
    ClassifyFirstMatch(message);
    assert Priority(c) < Priority(t) ==> Mentions(Text.Lower(message), c);
    assert Priority(t) < Priority(c) ==> Mentions(Text.Lower(message), t);
  }

  /** Matching is by substring: "which" contains "hi" and so gets the greeting. */
  lemma WhichIsGreeting()
    ensures Classify("which") == Greeting
  {
    var w := "which";
    assert Text.Lower(w) == w;
    WhichHasOnlyHi();
  }

  /** Of all the keywords, only "hi" occurs in "which". */
  lemma WhichHasOnlyHi()
    ensures var w := "which";
      && !Text.Contains(w, "disease") && !Text.Contains(w, "pest") && !Text.Contains(w, "insect")
      && !Text.Contains(w, "fertilizer") && !Text.Contains(w, "nutrient")
      && !Text.Contains(w, "weather") && !Text.Contains(w, "rain") && !Text.Contains(w, "forecast")
      && !Text.Contains(w, "price") && !Text.Contains(w, "market") && !Text.Contains(w, "sell")
      && Text.Contains(w, "hi")
  {
    Text.MissingChar("which", "pest", 0);
    Text.MissingChar("which", "rain", 0);
  }

  // Long texts below are written as sums of short pieces, cut between words:
  // the verifier handles short string literals far more cheaply than long ones.
  /** The canned reply of each group. */
  function Reply(t: Topic): string
  {
    match t
    case Disease =>
      "If you're dealing " +
      "with crop diseases " +
      "or pests, I " +
      "recommend uploading " +
      "an image of the " +
      "affected plant to " +
      "our disease " +
      "detection feature. " +
      "This will provide a " +
      "more accurate " +
      "diagnosis and " +
      "treatment plan. " +
      "Would you like me " +
      "to guide you there?"
    case Fertilizer =>
      "For optimal plant " +
      "nutrition, it's " +
      "important to " +
      "understand your " +
      "soil composition " +
      "first. Have you " +
      "conducted a soil " +
      "test recently? This " +
      "can help determine " +
      "the specific " +
      "nutrients your " +
      "crops need and " +
      "prevent " +
      "over-fertilization."
    case Weather =>
      "Weather conditions " +
      "are crucial for " +
      "planning farm " +
      "activities. Based " +
      "on recent forecasts " +
      "for common farming " +
      "regions, we're " +
      "expecting moderate " +
      "rainfall over the " +
      "next week. I " +
      "recommend checking " +
      "your local forecast " +
      "for more precise " +
      "information."
    case Market =>
      "Current market " +
      "trends show steady " +
      "prices for most " +
      "staple crops. Would " +
      "you like me to " +
      "provide more " +
      "specific " +
      "information about " +
      "particular crop " +
      "prices or connect " +
      "you to the market " +
      "price dashboard?"
    case Greeting =>
      "Hello! I'm here to " +
      "help with any " +
      "farming questions " +
      "you might have. " +
      "Feel free to ask " +
      "about crop " +
      "diseases, " +
      "fertilizers, " +
      "weather conditions, " +
      "market prices, or " +
      "farming techniques!"
    case Other =>
      "Thank you for your " +
      "question. To " +
      "provide more " +
      "specific guidance, " +
      "could you share " +
      "more details about " +
      "your crop type, " +
      "growing region, and " +
      "specific concerns? " +
      "This will help me " +
      "give you more " +
      "tailored advice."
  }

  /** The bot's opening message. */
  function Welcome(): Message
  {
    Message(1, WelcomeText(), Bot)
  }

  function WelcomeText(): string
  {
    "Hello! I'm FarmBot, " +
    "your AI farming " +
    "assistant. How can " +
    "I help you today?"
  }

  // ---------------------------------------------------------------------------
  // Sending and replying

  /** The chat page's state. */
  datatype Chat = Chat(messages: seq<Message>, input: string, isTyping: bool)

  /** What the delayed reply captured when the message was sent: the text and the message count then. */
  datatype PendingReply = PendingReply(question: string, countAtSend: int)

  /**
   * `sendMessage`, up to the delay: input that is blank once trimmed is
   * ignored; otherwise the raw input is appended as a user message numbered
   * one past the count, the input is cleared and the bot starts typing.
   */
  function Send(c: Chat): (r: (Chat, Option<PendingReply>))
    ensures Text.IsBlank(c.input) <==> r.1 == None
    ensures r.1 == None ==> r.0 == c
    ensures r.1 != None ==>
      && r.1 == Some(PendingReply(c.input, |c.messages|))
      && r.0.messages == c.messages + [Message(|c.messages| + 1, c.input, User)]
      && r.0.input == [] && r.0.isTyping
  {
    if Text.IsBlank(c.input) then (c, None)
    else
      (Chat(c.messages + [Message(|c.messages| + 1, c.input, User)], "", true),
       Some(PendingReply(c.input, |c.messages|)))
  }

  /**
   * The delayed half of `sendMessage`: the bot's reply to the captured text
   * is appended, numbered two past the count captured at send time, and the
   * bot stops typing.
   */
  function Deliver(c: Chat, p: PendingReply): (r: Chat)
    ensures r.messages == c.messages + [Answer(p)]
    ensures r.input == c.input && !r.isTyping
  {
    Chat(c.messages + [Answer(p)], c.input, false)
  }

  /** The bot's message for a pending reply: the canned reply of the question's group. */
  function Answer(p: PendingReply): (m: Message)
    ensures m.id == p.countAtSend + 2 && m.sender == Bot
    ensures m.content == Reply(Classify(p.question))
  {
    Message(p.countAtSend + 2, Reply(Classify(p.question)), Bot)
  }

  /** Message `i` carries id `i + 1`. */
  ghost predicate Numbered(ms: seq<Message>)
  {
    forall i :: 0 <= i < |ms| ==> ms[i].id == i + 1
  }

  /**
   * Sending keeps the conversation numbered 1, 2, 3, ...; the pending reply
   * remembers a count one short of the new length.
   */
  lemma SendKeepsNumbering(c: Chat)
    requires Numbered(c.messages)
    ensures Numbered(Send(c).0.messages)
    ensures Send(c).1.Some? ==> Send(c).1.value.countAtSend + 1 == |Send(c).0.messages|
  {
    if !Text.IsBlank(c.input) {
      var ms := Send(c).0.messages;
      assert forall i :: 0 <= i < |c.messages| ==> ms[i] == c.messages[i];
    }
  }

  /**
   * The reply keeps the numbering exactly when the count it remembers is one
   * short of the current length, that is, when nothing else was sent since.
   */
  lemma DeliverKeepsNumbering(c: Chat, p: PendingReply)
    requires Numbered(c.messages)
    ensures Numbered(Deliver(c, p).messages) <==> p.countAtSend + 1 == |c.messages|
  {
    var ms := Deliver(c, p).messages;
    assert ms[|c.messages|] == Answer(p);
    assert forall i :: 0 <= i < |c.messages| ==> ms[i] == c.messages[i];
  }

  /**
   * A second message sent while the bot is still typing takes the id that
   * the first reply will use, so the two messages share an id.
   */
  lemma OverlappingSendsShareId(c: Chat, second: string)
    requires !Text.IsBlank(c.input) && !Text.IsBlank(second)
    ensures var (sent1, p1) := Send(c);
      var (sent2, p2) := Send(sent1.(input := second));
      && p1.Some? && p2.Some?
      && var replied := Deliver(sent2, p1.value);
      && |replied.messages| == |c.messages| + 3
      && replied.messages[|c.messages| + 1].sender == User
      && replied.messages[|c.messages| + 2].sender == Bot
      && replied.messages[|c.messages| + 1].id == replied.messages[|c.messages| + 2].id == |c.messages| + 2
  {
    var n := |c.messages|;
    var sent1 := Chat(c.messages + [Message(n + 1, c.input, User)], "", true);
    var sent2 := Chat(sent1.messages + [Message(n + 2, second, User)], "", true);
    var replied := Deliver(sent2, PendingReply(c.input, n));
    assert replied.messages[n + 1] == Message(n + 2, second, User);
  }

  /** The chat page as objects: one field per piece of component state. */
  class Session {
    var messages: seq<Message>
    var inputMessage: string
    var isTyping: bool

    function State(): Chat
      reads this
    {
      Chat(messages, inputMessage, isTyping)
    }

    constructor ()
      ensures State() == Chat([Welcome()], "", false)
    {
      messages := [Welcome()];
      inputMessage := "";
      isTyping := false;
    }

    /** The input box's change handler. */
    method TypeMessage(text: string)
      modifies this`inputMessage
      ensures inputMessage == text
    {
      inputMessage := text;
    }

    /** `sendMessage` up to the delay; the result is what the delayed reply will need. */
    method SendMessage() returns (pending: Option<PendingReply>)
      modifies this
      ensures (State(), pending) == Send(old(State()))
    {
      if Text.IsBlank(inputMessage) {
        return None;
      }
      pending := Some(PendingReply(inputMessage, |messages|));
      messages := messages + [Message(|messages| + 1, inputMessage, User)];
      inputMessage := "";
      isTyping := true;
    }

    /** The callback that runs after the delay. */
    method DeliverReply(p: PendingReply)
      modifies this`messages, this`isTyping
      ensures State() == Deliver(old(State()), p)
    {
      var botResponse := Reply(Classify(p.question));
      messages := messages + [Message(p.countAtSend + 2, botResponse, Bot)];
      isTyping := false;
    }
  }
}
