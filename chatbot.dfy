/** The chat page of src/pages/Chatbot.tsx: a transcript that starts with a
    greeting and only grows, the input box, and `sendMessage`. */
module Chatbot {
  import opened Common

  /** A transcript entry; its id and timestamp are left out. */
  datatype ChatMessage = ChatMessage(message: string, isUser: bool)

  const Greeting := ChatMessage("Hello! I'm your AI study assistant. How can I help you today?", false)
  const SendFailed := "Failed to send message"

  const Suggestions: seq<string> := [
    "How can I improve my study habits?",
    "What's the best way to memorize information?",
    "Can you explain spaced repetition?",
    "How do I create effective flashcards?"
  ]

  /** The transcript after sending `input`, when the server answers `reply`. */
  function AfterSend(messages: seq<ChatMessage>, input: string, reply: Reply<string>): seq<ChatMessage> {
    if IsBlank(input) then messages
    else messages + [ChatMessage(input, true)] + (if reply.Ok? then [ChatMessage(reply.data, false)] else [])
  }

  /** One use of the send button: the text in the box and the server's answer. */
  datatype Send = Send(input: string, reply: Reply<string>)

  /** The transcript after a series of sends on a freshly mounted page. */
  function Conversation(sends: seq<Send>): seq<ChatMessage> {
    if sends == [] then [Greeting]
    else
      var last := sends[|sends| - 1];
      AfterSend(Conversation(sends[..|sends| - 1]), last.input, last.reply)
  }

  /** The texts of the user's messages, in order. */
  function UserTexts(messages: seq<ChatMessage>): seq<string> {
    if messages == [] then []
    else
      var last := messages[|messages| - 1];
      UserTexts(messages[..|messages| - 1]) + (if last.isUser then [last.message] else [])
  }

  /** The inputs that were not blank, in order. */
  function SentTexts(sends: seq<Send>): seq<string> {
    if sends == [] then []
    else
      var last := sends[|sends| - 1];
      SentTexts(sends[..|sends| - 1]) + (if IsBlank(last.input) then [] else [last.input])
  }

  /** Every assistant message after the greeting directly follows a user message. */
  predicate RepliesFollowQuestions(messages: seq<ChatMessage>) {
    forall i :: 0 < i < |messages| && !messages[i].isUser ==> messages[i - 1].isUser
  }

  // ---------------------------------------------------------------------

  /** A blank input changes nothing; otherwise the user's message is
      appended, then the reply if there is one, and every earlier entry
      stays where it was. */
  lemma AfterSendAppends(messages: seq<ChatMessage>, input: string, reply: Reply<string>)
    ensures messages <= AfterSend(messages, input, reply)
    ensures IsBlank(input) ==> AfterSend(messages, input, reply) == messages
    ensures !IsBlank(input) ==>
      |AfterSend(messages, input, reply)| == |messages| + (if reply.Ok? then 2 else 1) &&
      AfterSend(messages, input, reply)[|messages|] == ChatMessage(input, true) &&
      (reply.Ok? ==> AfterSend(messages, input, reply)[|messages| + 1] == ChatMessage(reply.data, false))
  {
  }

  lemma {:induction false} UserTextsAppend(messages: seq<ChatMessage>, more: seq<ChatMessage>)
    ensures UserTexts(messages + more) == UserTexts(messages) + UserTexts(more)
    decreases |more|
  {
    if more == [] {
      assert messages + more == messages;
    } else {
      var all := messages + more;
      assert all[..|all| - 1] == messages + more[..|more| - 1];
      assert all[|all| - 1] == more[|more| - 1];
      UserTextsAppend(messages, more[..|more| - 1]);
    }
  }

  /** The transcript opens with the greeting, which is the only message not
      preceded by a question, and the user's messages are exactly the
      non-blank inputs, in the order they were sent. */
  lemma {:induction false} ConversationShape(sends: seq<Send>)
    ensures |Conversation(sends)| > 0 && Conversation(sends)[0] == Greeting
    ensures RepliesFollowQuestions(Conversation(sends))
    ensures UserTexts(Conversation(sends)) == SentTexts(sends)
    decreases |sends|
  {
    if sends == [] {
      assert UserTexts([Greeting]) == UserTexts([]) + [];
    } else {
      var before := sends[..|sends| - 1];
      var last := sends[|sends| - 1];
      ConversationShape(before);
      var t := Conversation(before);
      AfterSendAppends(t, last.input, last.reply);
      if !IsBlank(last.input) {
        var added := [ChatMessage(last.input, true)] + (if last.reply.Ok? then [ChatMessage(last.reply.data, false)] else []);
        assert Conversation(sends) == t + added;
        UserTextsAppend(t, added);
        if last.reply.Ok? {
          assert UserTexts(added) == [last.input] by {
            assert added[..1] == [ChatMessage(last.input, true)];
            assert [ChatMessage(last.input, true)][..0] == [];
          }
        } else {
          assert UserTexts(added) == [last.input] by {
            assert added[..0] == [];
          }
        }
      }
    }
  }

  // ---------------------------------------------------------------------

  class ChatPage {
    var messages: seq<ChatMessage>
    var inputMessage: string
    var isLoading: bool
    var error: string

    constructor()
      ensures messages == [Greeting] && inputMessage == "" && !isLoading && error == ""
    {
      messages := [Greeting];
      inputMessage := "";
      isLoading := false;
      error := "";
    }

    method SetInput(value: string)
      modifies this`inputMessage
      ensures inputMessage == value
    {
      inputMessage := value;
    }

    /** A suggested question fills the input box. */
    method ChooseSuggestion(i: nat)
      requires i < |Suggestions|
      modifies this`inputMessage
      ensures inputMessage == Suggestions[i]
    {
      inputMessage := Suggestions[i];
    }

    predicate SendDisabled()
      reads this
    {
      isLoading || IsBlank(inputMessage)
    }

    /** `sendMessage`; `reply` is the server's answer to the message. It
        returns the text posted, if any. */
    method SendMessage(reply: Reply<string>) returns (posted: Option<string>)
      modifies this
      ensures messages == AfterSend(old(messages), old(inputMessage), reply)
      ensures IsBlank(old(inputMessage)) ==> posted.None? && unchanged(this)
      ensures !IsBlank(old(inputMessage)) ==>
        posted == Some(old(inputMessage)) && inputMessage == "" && !isLoading &&
        error == (if reply.Ok? then "" else OrElse(reply.message, SendFailed))
    {
      posted := None;
      if IsBlank(inputMessage) {
        return;
      }
      var text := inputMessage;
      messages := messages + [ChatMessage(text, true)];
      inputMessage := "";
      isLoading := true;
      error := "";
      posted := Some(text);
      match reply {
        case Ok(answer) =>
          messages := messages + [ChatMessage(answer, false)];
        case Failed(m) =>
          error := OrElse(m, SendFailed);
      }
      isLoading := false;
    }
  }
}
