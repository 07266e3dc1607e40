/**
 * The chat panel's state: one append-only message list per bot, the text
 * being typed and the "bot is typing" flag, and the send step that records
 * the user's message, calls the chat endpoint and records the reply.
 */
module ChatUi {
  import opened Wrappers
  import opened Types
  import opened Text
  import opened ChatRoute

  /** The clock reading a message is stamped with: `Date.now().toString()` and `new Date()`. */
  datatype Stamp = Stamp(id: string, timestamp: int)

  /** `byBot[id] || []`: a bot with no entry has no messages. */
  function MessagesFor(byBot: map<int, seq<Message>>, id: int): seq<Message> {
    if id in byBot then byBot[id] else []
  }

  /**
   * The state updater `{...prev, [id]: [...(prev[id] || []), m]}`: `m` goes at
   * the end of bot `id`'s list and every other bot's list is kept.
   */
  function Appended(prev: map<int, seq<Message>>, id: int, m: Message): (next: map<int, seq<Message>>)
    ensures next.Keys == prev.Keys + {id}
    ensures MessagesFor(next, id) == MessagesFor(prev, id) + [m]
    ensures forall k | k != id :: MessagesFor(next, k) == MessagesFor(prev, k)
  {
    prev[id := MessagesFor(prev, id) + [m]]
  }

  /** Two appends for one bot: the list grows by exactly those two, in order, and nothing else moves. */
  lemma AppendedTwice(prev: map<int, seq<Message>>, id: int, a: Message, b: Message)
    ensures var next := Appended(Appended(prev, id, a), id, b);
      && MessagesFor(next, id) == MessagesFor(prev, id) + [a, b]
      && |MessagesFor(next, id)| == |MessagesFor(prev, id)| + 2
      && MessagesFor(next, id)[..|MessagesFor(prev, id)|] == MessagesFor(prev, id)
      && forall k | k != id :: MessagesFor(next, k) == MessagesFor(prev, k)
  {
    var mid := Appended(prev, id, a);
    var next := Appended(mid, id, b);
    assert MessagesFor(prev, id) + [a] + [b] == MessagesFor(prev, id) + [a, b];
  }

  /** `data.reply` as the client reads it: absent when the endpoint answered with an error. */
  function ReplyContent(response: ChatResponse): (content: Option<string>)
    ensures content.Some? <==> response.Reply?
    ensures content.Some? ==> content.value == response.reply
  {
    match response
    case Reply(r) => Some(r)
    case ServerError(_, _) => None
  }

  /** The message recorded for the user's text. */
  function UserMessage(stamp: Stamp, text: string): Message {
    Message(stamp.id, Some(text), FromUser, stamp.timestamp)
  }

  /** The message recorded for the endpoint's answer. */
  function BotMessage(stamp: Stamp, response: ChatResponse): Message {
    Message(stamp.id, ReplyContent(response), FromBot, stamp.timestamp)
  }

  class ChatInterface {
    var bot: Bot
    var inputValue: string
    var messagesByBot: map<int, seq<Message>>
    var isTyping: bool

    constructor(bot: Bot)
      ensures this.bot == bot && inputValue == "" && messagesByBot == map[] && !isTyping
    {
      this.bot := bot;
      inputValue := "";
      messagesByBot := map[];
      isTyping := false;
    }

    /** Sending is possible when the input is not blank and the bot is online (also the send button's enabled state). */
    predicate CanSend()
      reads this
    {
      !Blank(inputValue) && bot.isOnline
    }

    /** A new bot is selected: the panel keeps its per-bot lists and its input. */
    method SelectBot(b: Bot)
      modifies this`bot
      ensures bot == b
    {
      bot := b;
    }

    /** The input's change handler. */
    method ChangeInput(value: string)
      modifies this`inputValue
      ensures inputValue == value
    {
      inputValue := value;
    }

    /**
     * What one send does, from the state before it to the state after it.
     * If sending is not possible, nothing is sent and nothing changes.
     * Otherwise the input is cleared, the request carries the typed text and
     * the bot's list as it was before the append, and the user message is
     * appended; when an answer arrives the bot message is appended too and
     * typing ends. No other bot's list changes.
     */
    twostate predicate Sent(userStamp: Stamp, botStamp: Stamp, response: Option<ChatResponse>, new request: Option<ChatRequest>)
      reads this
    {
      && bot == old(bot)
      && (!old(CanSend()) ==>
            request.None? && messagesByBot == old(messagesByBot)
            && inputValue == old(inputValue) && isTyping == old(isTyping))
      && (old(CanSend()) ==>
            && request == Some(ChatRequest(old(inputValue), bot.id, Some(MessagesFor(old(messagesByBot), bot.id))))
            && inputValue == ""
            && isTyping == response.None?)
      && (old(CanSend()) && response.None? ==>
            messagesByBot == Appended(old(messagesByBot), bot.id, UserMessage(userStamp, old(inputValue))))
      && (old(CanSend()) && response.Some? ==>
            && messagesByBot == Appended(Appended(old(messagesByBot), bot.id, UserMessage(userStamp, old(inputValue))),
                                         bot.id, BotMessage(botStamp, response.value))
            && MessagesFor(messagesByBot, bot.id) ==
               MessagesFor(old(messagesByBot), bot.id) + [UserMessage(userStamp, old(inputValue)), BotMessage(botStamp, response.value)])
      && (forall k | k != bot.id :: MessagesFor(messagesByBot, k) == MessagesFor(old(messagesByBot), k))
    }

    /**
     * One send. `response` is what the chat endpoint answers, or `None` when
     * the request or the reading of its body fails, in which case the rest of
     * the send never runs. Returns the request sent, if any.
     */
    method SendMessage(userStamp: Stamp, botStamp: Stamp, response: Option<ChatResponse>)
      returns (request: Option<ChatRequest>)
      modifies this`messagesByBot, this`inputValue, this`isTyping
      ensures Sent(userStamp, botStamp, response, request)
    {
      // `!inputValue.trim()`, which by the contract of `Trim` holds exactly for a blank input.
      if Blank(inputValue) || !bot.isOnline {
        return None;
      }
      var userMessage := UserMessage(userStamp, inputValue);
      // The request is built from the values captured before the updates below.
      var text := inputValue;
      var history := MessagesFor(messagesByBot, bot.id);
      messagesByBot := Appended(messagesByBot, bot.id, userMessage);
      inputValue := "";
      isTyping := true;
      request := Some(ChatRequest(text, bot.id, Some(history)));
      if response.None? {
        return;
      }
      ghost var afterUser := messagesByBot;
      var botMessage := BotMessage(botStamp, response.value);
      messagesByBot := Appended(messagesByBot, bot.id, botMessage);
      isTyping := false;
      assert MessagesFor(messagesByBot, bot.id) == MessagesFor(afterUser, bot.id) + [botMessage];
      assert MessagesFor(messagesByBot, bot.id) == history + [userMessage, botMessage];
    }

    /** Enter without Shift sends; any other key does nothing. */
    method HandleKeyPress(key: string, shiftKey: bool, userStamp: Stamp, botStamp: Stamp, response: Option<ChatResponse>)
      returns (request: Option<ChatRequest>)
      modifies this`messagesByBot, this`inputValue, this`isTyping
      ensures !(key == "Enter" && !shiftKey) ==>
        request.None? && messagesByBot == old(messagesByBot)
        && inputValue == old(inputValue) && isTyping == old(isTyping)
      ensures key == "Enter" && !shiftKey ==> Sent(userStamp, botStamp, response, request)
    {
      request := None;
      if key == "Enter" && !shiftKey {
        request := SendMessage(userStamp, botStamp, response);
      }
    }
  }
}
