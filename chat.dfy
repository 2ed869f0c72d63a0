/**
 * The chat assistant panel (src/components/AIChat.tsx).
 *
 * The panel keeps an append-only message log, the input field, an `isTyping` flag
 * and the replies scheduled by `setTimeout`. Each handler is an atomic step on a
 * `ChatState`; the timer firing is a separate step, and `Math.random()` becomes the
 * index of the canned reply. Timestamps (`new Date()`) are not modelled.
 */
module Chat {
  import opened Maybe

  // ---------------------------------------------------------------------------
  // String.prototype.trim

  /**
   * The characters ECMAScript's `trim` removes: WhiteSpace (tab, vertical tab,
   * form feed, no-break space, byte order mark and the space separators of
   * category Zs) and LineTerminator (line feed, carriage return, U+2028, U+2029).
   */
  predicate IsSpace(c: char) {
    c == ' ' || c == '\t' || c == '\n' || c == '\r' || c == '\U{000B}' || c == '\U{000C}'
    || c == '\U{00A0}' || c == '\U{1680}' || ('\U{2000}' <= c <= '\U{200A}')
    || c == '\U{2028}' || c == '\U{2029}' || c == '\U{202F}' || c == '\U{205F}'
    || c == '\U{3000}' || c == '\U{FEFF}'
  }

  /** Every character of `s` is whitespace (the empty string included). */
  predicate Blank(s: string) {
    forall i :: 0 <= i < |s| ==> IsSpace(s[i])
  }

  /** Drops leading whitespace: the result is the longest suffix that does not start with whitespace. */
  function TrimStart(s: string): (r: string)
    ensures |r| <= |s| && r == s[|s| - |r|..]
    ensures r == [] || !IsSpace(r[0])
    ensures Blank(s[..|s| - |r|])
  {
    if s != [] && IsSpace(s[0]) then
      var r := TrimStart(s[1..]);
      assert s[1..][..|s| - 1 - |r|] == s[1..|s| - |r|];
      r
    else s
  }

  /** Drops trailing whitespace: the result is the longest prefix that does not end with whitespace. */
  function TrimEnd(s: string): (r: string)
    ensures |r| <= |s| && r == s[..|r|]
    ensures r == [] || !IsSpace(r[|r| - 1])
    ensures Blank(s[|r|..])
  {
    if s != [] && IsSpace(s[|s| - 1]) then
      var r := TrimEnd(s[..|s| - 1]);
      assert s[..|s| - 1][|r|..] == s[|r|..|s| - 1];
      assert s[|r|..] == s[|r|..|s| - 1] + [s[|s| - 1]];
      r
    else s
  }

  /** `s.trim()`: empty exactly when `s` is blank, and otherwise starting and ending with a non-whitespace character. */
  function Trim(s: string): (r: string)
    ensures |r| <= |s|
    ensures r == [] <==> Blank(s)
    ensures r != [] ==> !IsSpace(r[0]) && !IsSpace(r[|r| - 1])
  {
    TrimEmptyIffBlank(s);
    TrimEndsSolid(s);
    TrimEnd(TrimStart(s))
  }

  /** Trimming both ends leaves non-whitespace at both ends, unless nothing is left. */
  lemma TrimEndsSolid(s: string)
    ensures var r := TrimEnd(TrimStart(s));
            r != [] ==> !IsSpace(r[0]) && !IsSpace(r[|r| - 1])
  {
    var t := TrimStart(s);
    var r := TrimEnd(t);
    if r != [] {
      assert r[0] == t[..|r|][0] == t[0];
    }
  }

  /** `!s.trim()` holds exactly when the string is empty or all whitespace. */
  lemma TrimEmptyIffBlank(s: string)
    ensures TrimEnd(TrimStart(s)) == [] <==> Blank(s)
  {
    var t := TrimStart(s);
    if t != [] {
      assert t[0..] == t;
      assert s[|s| - |t|] == t[0];
    } else {
      assert s[..|s|] == s;
    }
  }

  // ---------------------------------------------------------------------------
  // Messages and the panel's state

  /** The `type` field of a message: 'user' or 'ai'. */
  datatype Kind = FromUser | FromAi

  datatype Message = Message(id: int, kind: Kind, content: string, suggestions: Option<seq<string>>)

  /** The panel's state; `pending` holds the ids of the replies whose timers have not fired, oldest first. */
  datatype ChatState = ChatState(messages: seq<Message>, input: string, isTyping: bool, pending: seq<int>)

  /** The index `Math.floor(Math.random() * aiResponses.length)` picks, which lies in [0, 5). */
  type ReplyIndex = k: nat | k < 5

  const Greeting: string :=
    "Hello! I'm your AI trading assistant. I can help you with market analysis, trading strategies, and portfolio optimization. What would you like to know?"

  const OpeningSuggestions: seq<string> :=
    ["Analyze my portfolio", "Find arbitrage opportunities", "Suggest yield strategies", "Market sentiment"]

  /** The canned replies. */
  const AiResponses: seq<string> := [
    "Based on current market conditions, ETH appears to be in a consolidation phase. Consider DCA strategies for optimal entry points.",
    "I've identified 3 high-probability arbitrage opportunities across DEXs. The ETH/USDC pair shows 1.2% profit potential.",
    "Your portfolio allocation looks solid. However, consider increasing exposure to yield-bearing assets for better returns.",
    "Market sentiment is currently bullish. Options strategies might be worth exploring for hedging positions.",
    "Cross-chain opportunities are abundant right now. The Arbitrum-Polygon bridge shows interesting yield farming prospects."
  ]

  /** The suggestions every reply carries. */
  const FollowUps: seq<string> := ["Tell me more", "Show me data", "Execute strategy", "Risk analysis"]

  /** The panel on mount: one greeting from the assistant with id 1 and four suggestions. */
  function Initial(): (st: ChatState)
    ensures |st.messages| == 1
    ensures st.messages[0].id == 1 && st.messages[0].kind == FromAi
    ensures st.messages[0].suggestions.Some? && |st.messages[0].suggestions.value| == 4
    ensures st.input == "" && !st.isTyping && st.pending == []
  {
    ChatState([Message(1, FromAi, Greeting, Some(OpeningSuggestions))], "", false, [])
  }

  /** The send button is enabled exactly when the trimmed input is non-empty and no reply is being typed. */
  function SendEnabled(st: ChatState): (b: bool)
    ensures b <==> !Blank(st.input) && !st.isTyping
  {
    TrimEmptyIffBlank(st.input);
    Trim(st.input) != [] && !st.isTyping
  }

  /**
   * `handleSendMessage` as written: an input that is empty after trimming changes
   * nothing; otherwise the untrimmed input is appended as a user message whose id
   * is the log length plus one, the input is cleared, `isTyping` is set and a reply
   * with id length plus two is scheduled. `isTyping` is not consulted.
   */
  function Send(st: ChatState): (r: ChatState)
    ensures Blank(st.input) ==> r == st
    ensures !Blank(st.input) ==>
              r.messages == st.messages + [Message(|st.messages| + 1, FromUser, st.input, None)]
              && r.input == "" && r.isTyping
              && r.pending == st.pending + [|st.messages| + 2]
  {
    TrimEmptyIffBlank(st.input);
    if Trim(st.input) == [] then st
    else
      var n := |st.messages|;
      ChatState(st.messages + [Message(n + 1, FromUser, st.input, None)], "", true, st.pending + [n + 2])
  }

  /** A send that only goes through when the send button would be enabled. */
  function GuardedSend(st: ChatState): (r: ChatState)
    ensures !SendEnabled(st) ==> r == st
    ensures SendEnabled(st) ==> r == Send(st) && r.isTyping && |r.messages| == |st.messages| + 1
  {
    if SendEnabled(st) then Send(st) else st
  }

  /**
   * The oldest scheduled timer fires: one assistant message with the scheduled id,
   * the chosen canned reply and the follow-up suggestions is appended, and
   * `isTyping` is cleared.
   */
  function Deliver(st: ChatState, k: ReplyIndex): (r: ChatState)
    requires st.pending != []
    ensures r.messages == st.messages + [Message(st.pending[0], FromAi, AiResponses[k], Some(FollowUps))]
    ensures !r.isTyping && r.input == st.input && r.pending == st.pending[1..]
  {
    ChatState(st.messages + [Message(st.pending[0], FromAi, AiResponses[k], Some(FollowUps))],
              st.input, false, st.pending[1..])
  }

  /** Typing into the field, a suggestion click or a quick action: only the input changes. */
  function SetInput(st: ChatState, text: string): (r: ChatState)
    ensures r.input == text
    ensures r.messages == st.messages && r.isTyping == st.isTyping && r.pending == st.pending
  {
    st.(input := text)
  }

  // ---------------------------------------------------------------------------
  // Runs of user and timer events

  datatype Event =
    | Typed(text: string)                 // the input's onChange
    | SuggestionClicked(suggestion: string)
    | SendClicked                         // the send button
    | EnterPressed                        // Enter in the input field
    | ReplyDue(k: ReplyIndex)             // the oldest scheduled timer fires

  /** One event as the panel is written: the Enter key sends without looking at `isTyping`. */
  function StepAsWritten(st: ChatState, e: Event): (r: ChatState)
    ensures |r.messages| <= |st.messages| + 1
    ensures e.Typed? || e.SuggestionClicked? ==> r.messages == st.messages && r.isTyping == st.isTyping
    ensures e.EnterPressed? ==> r == Send(st)
  {
    match e
    case Typed(text) => SetInput(st, text)
    case SuggestionClicked(s) => SetInput(st, s)
    case SendClicked => GuardedSend(st)
    case EnterPressed => Send(st)
    case ReplyDue(k) => if st.pending == [] then st else Deliver(st, k)
  }

  /** One event with the Enter key guarded like the send button. */
  function Step(st: ChatState, e: Event): (r: ChatState)
    ensures |r.messages| <= |st.messages| + 1
    ensures e.EnterPressed? || e.SendClicked? ==> r == GuardedSend(st)
    ensures !e.EnterPressed? ==> r == StepAsWritten(st, e)
  {
    match e
    case EnterPressed => GuardedSend(st)
    case _ => StepAsWritten(st, e)
  }

  /** The state after a sequence of events as the panel is written; each event adds at most one message. */
  function RunAsWritten(st: ChatState, events: seq<Event>): (r: ChatState)
    ensures |r.messages| <= |st.messages| + |events|
    decreases |events|
  {
    if events == [] then st else RunAsWritten(StepAsWritten(st, events[0]), events[1..])
  }

  /** The state after a sequence of events with the Enter key guarded; each event adds at most one message. */
  function Run(st: ChatState, events: seq<Event>): (r: ChatState)
    ensures |r.messages| <= |st.messages| + |events|
    decreases |events|
  {
    if events == [] then st else Run(Step(st, events[0]), events[1..])
  }

  /** No event alters or removes an earlier message, with or without the Enter guard. */
  lemma StepAppendsOnly(st: ChatState, e: Event)
    ensures st.messages <= StepAsWritten(st, e).messages
    ensures st.messages <= Step(st, e).messages
  {
  }

  /** The log only grows over a whole run: every earlier message stays where it was. */
  lemma {:induction false} RunAppendsOnly(st: ChatState, events: seq<Event>)
    ensures st.messages <= RunAsWritten(st, events).messages
    ensures st.messages <= Run(st, events).messages
    decreases |events|
  {
    if events != [] {
      StepAppendsOnly(st, events[0]);
      RunAppendsOnly(StepAsWritten(st, events[0]), events[1..]);
      RunAppendsOnly(Step(st, events[0]), events[1..]);
    }
  }

  /**
   * Every message's id is its 1-based position, at most one reply is pending and
   * it will take the next position, and `isTyping` says whether one is pending.
   */
  predicate Orderly(st: ChatState) {
    (forall i :: 0 <= i < |st.messages| ==> st.messages[i].id == i + 1)
    && (st.pending == [] || st.pending == [|st.messages| + 1])
    && (st.isTyping <==> st.pending != [])
  }

  lemma SendKeepsOrderly(st: ChatState)
    requires Orderly(st) && SendEnabled(st)
    ensures Orderly(Send(st))
  {
    var r := Send(st);
    forall i | 0 <= i < |r.messages| ensures r.messages[i].id == i + 1 {
      if i < |st.messages| {
        assert r.messages[i] == st.messages[i];
      }
    }
  }

  lemma DeliverKeepsOrderly(st: ChatState, k: ReplyIndex)
    requires Orderly(st) && st.pending != []
    ensures Orderly(Deliver(st, k))
  {
    var r := Deliver(st, k);
    forall i | 0 <= i < |r.messages| ensures r.messages[i].id == i + 1 {
      if i < |st.messages| {
        assert r.messages[i] == st.messages[i];
      }
    }
  }

  lemma StepKeepsOrderly(st: ChatState, e: Event)
    requires Orderly(st)
    ensures Orderly(Step(st, e))
  {
    match e
    case Typed(_) =>
    case SuggestionClicked(_) =>
    case SendClicked =>
      if SendEnabled(st) { SendKeepsOrderly(st); }
    case EnterPressed =>
      if SendEnabled(st) { SendKeepsOrderly(st); }
    case ReplyDue(k) =>
      if st.pending != [] { DeliverKeepsOrderly(st, k); }
  }

  /** With the Enter key guarded, every reachable log numbers its messages 1, 2, 3, ... */
  lemma {:induction false} RunKeepsOrderly(st: ChatState, events: seq<Event>)
    requires Orderly(st)
    ensures Orderly(Run(st, events))
    decreases |events|
  {
    if events != [] {
      StepKeepsOrderly(st, events[0]);
      RunKeepsOrderly(Step(st, events[0]), events[1..]);
    }
  }

  /** From mount on, the message at 1-based position k has id k; so no two messages share an id. */
  lemma IdsArePositions(events: seq<Event>)
    ensures var log := Run(Initial(), events).messages;
            (forall i :: 0 <= i < |log| ==> log[i].id == i + 1)
            && (forall i, j :: 0 <= i < j < |log| ==> log[i].id != log[j].id)
  {
    RunKeepsOrderly(Initial(), events);
  }

  /**
   * As written, pressing Enter while a reply is pending sends anyway: the new user
   * message takes the id the pending reply was scheduled with, so once that reply
   * arrives two adjacent messages share an id.
   */
  lemma EnterWhileTypingDuplicatesId(st: ChatState, k: ReplyIndex)
    requires Orderly(st) && st.isTyping && !Blank(st.input)
    ensures var r := Deliver(StepAsWritten(st, EnterPressed), k);
            |r.messages| == |st.messages| + 2
            && r.messages[|st.messages|].id == r.messages[|st.messages| + 1].id
  {
  }

  /**
   * Such a state is reached from any idle, orderly state (the panel on mount is one)
   * by typing, sending, and typing again before the reply arrives.
   */
  lemma TypingWhileReplyPendingReachable(st: ChatState, first: string, second: string)
    requires Orderly(st) && !st.isTyping && !Blank(first) && !Blank(second)
    ensures var t := SetInput(StepAsWritten(SetInput(st, first), EnterPressed), second);
            Orderly(t) && t.isTyping && !Blank(t.input)
  {
    var a := SetInput(st, first);
    assert SendEnabled(a);
    SendKeepsOrderly(a);
    var b := StepAsWritten(a, EnterPressed);
    assert b == Send(a);
    assert Orderly(b) && b.isTyping;
    var t := SetInput(b, second);
    assert t.messages == b.messages && t.pending == b.pending && t.isTyping;
  }

  // ---------------------------------------------------------------------------
  // The panel object

  /** The chat panel's state, updated in place by its handlers. */
  class AiChat {
    var messages: seq<Message>
    var input: string
    var isTyping: bool
    var pending: seq<int>

    function State(): ChatState
      reads this
    {
      ChatState(messages, input, isTyping, pending)
    }

    constructor ()
      ensures State() == Initial()
    {
      messages := [Message(1, FromAi, Greeting, Some(OpeningSuggestions))];
      input := "";
      isTyping := false;
      pending := [];
    }

    /** Whether the send button is enabled. */
    function CanSend(): (b: bool)
      reads this
      ensures b <==> !Blank(input) && !isTyping
    {
      SendEnabled(State())
    }

    /** The input's onChange, a suggestion click and the quick-action buttons all overwrite the input. */
    method SetInputValue(text: string)
      modifies this
      ensures State() == SetInput(old(State()), text)
    {
      input := text;
    }

    method HandleSuggestionClick(suggestion: string)
      modifies this
      ensures State() == SetInput(old(State()), suggestion)
    {
      input := suggestion;
    }

    /** A click on the send button: `handleSendMessage`, reachable only while the button is enabled. */
    method HandleSendMessage()
      modifies this
      ensures State() == GuardedSend(old(State()))
      ensures Orderly(old(State())) ==> Orderly(State())
    {
      if !SendEnabled(State()) {
        return;
      }
      var n := |messages|;
      messages := messages + [Message(n + 1, FromUser, input, None)];
      input := "";
      isTyping := true;
      pending := pending + [n + 2];
      if Orderly(old(State())) {
        SendKeepsOrderly(old(State()));
      }
    }

    /**
     * Enter in the input field as written: `handleSendMessage` is called directly,
     * so only the trim test applies and a reply may already be pending.
     */
    method HandleEnterKey()
      modifies this
      ensures State() == Send(old(State()))
    {
      if Blank(input) {
        return;
      }
      var n := |messages|;
      messages := messages + [Message(n + 1, FromUser, input, None)];
      input := "";
      isTyping := true;
      pending := pending + [n + 2];
    }

    /** The oldest reply timer fires with canned reply `k`. */
    method DeliverReply(k: ReplyIndex)
      requires pending != []
      modifies this
      ensures State() == Deliver(old(State()), k)
      ensures Orderly(old(State())) ==> Orderly(State())
    {
      messages := messages + [Message(pending[0], FromAi, AiResponses[k], Some(FollowUps))];
      isTyping := false;
      pending := pending[1..];
      if Orderly(old(State())) {
        DeliverKeepsOrderly(old(State()), k);
      }
    }
  }
}
