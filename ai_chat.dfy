/** The floating chat assistant (AIChat): a keyword-driven canned reply selector
    and the message list it appends to. The reply to a sent message arrives one
    timer tick later; the model makes that tick an explicit DeliverReply step. */
module Chat {
  import opened Text

  datatype Sender = User | Bot

  /** A chat bubble. `id` and `time` come from the clock (Date.now and
      toLocaleTimeString) and are passed in by the caller. */
  datatype Message = Message(id: int, text: string, sender: Sender, time: string)

  const Greeting := "Namaste! I am your Swavlamban Sahayak. How can I help you today?"
  const ReportReply := "You can report an issue by going to the 'Report Issue' section in the menu. What problem are you facing?"
  const TrackReply := "To track your complaint, please provide your Complaint ID or Mobile number in the 'Track Issue' section."
  const CreditsReply := "You earn coins for every complaint you file and verify. You can redeem them in the 'Credits' section for daily products."
  const DefaultReply := "Bilkul! I can help you with reporting civic issues, tracking them, or understanding our reward system. Please tell me more."

  /** The Hindi word for "complaint" (shikayat), matched beside "report". */
  const ComplaintWord := "\U{0936}\U{093F}\U{0915}\U{093E}\U{092F}\U{0924}"

  const Replies: set<string> := {ReportReply, TrackReply, CreditsReply, DefaultReply}

  /** The message list the chat opens with. */
  const InitialMessages: seq<Message> := [Message(1, Greeting, Bot, "10:00 AM")]

  predicate AsksToReport(t: string) { Contains(t, "report") || Contains(t, ComplaintWord) }
  predicate AsksToTrack(t: string) { Contains(t, "track") || Contains(t, "status") }
  predicate AsksAboutCredits(t: string) { Contains(t, "credits") || Contains(t, "coins") }

  /** getAIResponse: the lower-cased text is checked for the report, tracking and
      credits keywords in that order; the first group that matches picks the reply. */
  function AIResponse(text: string): (r: string)
    ensures r in Replies
  {
    var t := ToLower(text);
    if AsksToReport(t) then ReportReply
    else if AsksToTrack(t) then TrackReply
    else if AsksAboutCredits(t) then CreditsReply
    else DefaultReply
  }

  /** Which reply is chosen, as an if-and-only-if for each of the four. */
  lemma AIResponseCases(text: string)
    ensures var t := ToLower(text);
      && (AIResponse(text) == ReportReply <==> AsksToReport(t))
      && (AIResponse(text) == TrackReply <==> !AsksToReport(t) && AsksToTrack(t))
      && (AIResponse(text) == CreditsReply <==> !AsksToReport(t) && !AsksToTrack(t) && AsksAboutCredits(t))
      && (AIResponse(text) == DefaultReply <==> !AsksToReport(t) && !AsksToTrack(t) && !AsksAboutCredits(t))
  {
  }

  /** The match ignores ASCII case: a text and its lower-cased form get the same reply. */
  lemma AIResponseIgnoresCase(text: string)
    ensures AIResponse(ToLower(text)) == AIResponse(text)
  {
    ToLowerIdempotent(text);
  }

  /** A keyword that lower-cases to kw, anywhere inside a text, is seen by the matcher. */
  lemma {:induction false} KeywordSeen(a: string, k: string, b: string, kw: string)
    requires ToLower(k) == kw
    ensures Contains(ToLower(a + k + b), kw)
  {
    ToLowerAppend(a + k, b);
    ToLowerAppend(a, k);
    ContainsInside(ToLower(a), kw, ToLower(b));
  }

  /** "report" in any case, anywhere in the text, wins over every other keyword. */
  lemma ReportKeywordWins(a: string, k: string, b: string)
    requires ToLower(k) == "report"
    ensures AIResponse(a + k + b) == ReportReply
  {
    KeywordSeen(a, k, b, "report");
  }

  /** The Hindi complaint word anywhere in the text also selects the report reply. */
  lemma ComplaintWordWins(a: string, b: string)
    ensures AIResponse(a + ComplaintWord + b) == ReportReply
  {
    assert ToLower(ComplaintWord) == ComplaintWord;
    KeywordSeen(a, ComplaintWord, b, ComplaintWord);
  }

  /** "track" inside any text (even inside a longer word) gives the tracking reply
      unless a report keyword is present too. */
  lemma TrackKeywordAnywhere(a: string, k: string, b: string)
    requires ToLower(k) == "track"
    requires !AsksToReport(ToLower(a + k + b))
    ensures AIResponse(a + k + b) == TrackReply
  {
    KeywordSeen(a, k, b, "track");
  }

  /** "coins" anywhere gives the credits reply when neither a report nor a tracking keyword is present. */
  lemma CoinsKeywordAnywhere(a: string, k: string, b: string)
    requires ToLower(k) == "coins"
    requires !AsksToReport(ToLower(a + k + b)) && !AsksToTrack(ToLower(a + k + b))
    ensures AIResponse(a + k + b) == CreditsReply
  {
    KeywordSeen(a, k, b, "coins");
  }

  /** How many messages in ms came from `who`. */
  function Count(ms: seq<Message>, who: Sender): nat {
    if ms == [] then 0
    else Count(ms[..|ms| - 1], who) + (if ms[|ms| - 1].sender == who then 1 else 0)
  }

  lemma CountAppend(ms: seq<Message>, m: Message, who: Sender)
    ensures Count(ms + [m], who) == Count(ms, who) + (if m.sender == who then 1 else 0)
  {
  }

  /** `text.trim()` is not empty. */
  predicate NonBlank(text: string) {
    Trim(text) != []
  }

  /** The chat invariant over a message list and the texts still awaiting a reply:
      the greeting opens the list, every user message and every pending text is
      non-blank, every later bot message is a canned reply, and each user message is
      answered by exactly one bot message, delivered or still pending. */
  predicate ChatInvariant(ms: seq<Message>, pending: seq<string>) {
    && |ms| >= 1 && ms[0] == InitialMessages[0]
    && (forall i :: 0 <= i < |ms| && ms[i].sender == User ==> NonBlank(ms[i].text))
    && (forall i :: 1 <= i < |ms| && ms[i].sender == Bot ==> ms[i].text in Replies)
    && (forall i :: 0 <= i < |pending| ==> NonBlank(pending[i]))
    && Count(ms, User) + 1 == Count(ms, Bot) + |pending|
  }

  /** Appending a non-blank user message and queueing its text keeps the invariant. */
  lemma SendKeepsInvariant(ms: seq<Message>, pending: seq<string>, m: Message)
    requires ChatInvariant(ms, pending)
    requires m.sender == User && NonBlank(m.text)
    ensures ChatInvariant(ms + [m], pending + [m.text])
  {
    var ms', pending' := ms + [m], pending + [m.text];
    assert ms'[0] == ms[0];
    forall i | 0 <= i < |ms'| && ms'[i].sender == User
      ensures NonBlank(ms'[i].text)
    {
      if i < |ms| {
        assert ms'[i] == ms[i];
      }
    }
    forall i | 1 <= i < |ms'| && ms'[i].sender == Bot
      ensures ms'[i].text in Replies
    {
      assert i < |ms| && ms'[i] == ms[i];
    }
    forall i | 0 <= i < |pending'|
      ensures NonBlank(pending'[i])
    {
      if i < |pending| {
        assert pending'[i] == pending[i];
      }
    }
    CountAppend(ms, m, User);
    CountAppend(ms, m, Bot);
  }

  /** Appending the reply to the oldest pending text and dequeuing it keeps the invariant. */
  lemma ReplyKeepsInvariant(ms: seq<Message>, pending: seq<string>, m: Message)
    requires ChatInvariant(ms, pending) && pending != []
    requires m.sender == Bot && m.text in Replies
    ensures ChatInvariant(ms + [m], pending[1..])
  {
  }

  class AIChat {
    var isOpen: bool
    var messages: seq<Message>
    var input: string
    /** The texts whose deferred reply has not arrived yet, oldest first. */
    var pending: seq<string>

    ghost predicate Valid()
      reads this
    {
      ChatInvariant(messages, pending)
    }

    constructor ()
      ensures Valid()
      ensures !isOpen && messages == InitialMessages && input == "" && pending == []
    {
      isOpen := false;
      messages := InitialMessages;
      input := "";
      pending := [];
    }

    /** The floating button flips the panel open or shut. */
    method Toggle()
      modifies this
      ensures isOpen == !old(isOpen)
      ensures messages == old(messages) && input == old(input) && pending == old(pending)
    {
      isOpen := !isOpen;
    }

    /** The close button in the panel header, shown only while the panel is open. */
    method Close()
      requires isOpen
      modifies this
      ensures !isOpen
      ensures messages == old(messages) && input == old(input) && pending == old(pending)
    {
      isOpen := false;
    }

    /** Typing in the input box, shown only while the panel is open. */
    method SetInput(s: string)
      requires isOpen
      modifies this
      ensures input == s
      ensures isOpen == old(isOpen) && messages == old(messages) && pending == old(pending)
    {
      input := s;
    }

    /** handleSend: a blank input is ignored; otherwise the input, untrimmed, is
        appended as a user message, the box is cleared and the reply is scheduled.
        The form exists only while the panel is open. */
    method Send(now: int, clock: string)
      requires Valid() && isOpen
      modifies this
      ensures Valid()
      ensures isOpen == old(isOpen)
      ensures Trim(old(input)) == [] ==>
        messages == old(messages) && input == old(input) && pending == old(pending)
      ensures Trim(old(input)) != [] ==>
        && messages == old(messages) + [Message(now, old(input), User, clock)]
        && input == ""
        && pending == old(pending) + [old(input)]
    {
      if Trim(input) == [] {
        return;
      }
      var userMsg := Message(now, input, User, clock);
      SendKeepsInvariant(messages, pending, userMsg);
      messages := messages + [userMsg];
      pending := pending + [input];
      input := "";
    }

    /** The timer set by the oldest outstanding Send fires: the reply chosen for
        the text that was sent is appended as a bot message. */
    method DeliverReply(now: int, clock: string)
      requires Valid()
      requires pending != []
      modifies this
      ensures Valid()
      ensures messages == old(messages) + [Message(now + 1, AIResponse(old(pending)[0]), Bot, clock)]
      ensures pending == old(pending)[1..]
      ensures isOpen == old(isOpen) && input == old(input)
    {
      var botMsg := Message(now + 1, AIResponse(pending[0]), Bot, clock);
      ReplyKeepsInvariant(messages, pending, botMsg);
      messages := messages + [botMsg];
      pending := pending[1..];
    }
  }
}
