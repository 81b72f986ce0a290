/** The delivery chatbot's message log: an append-only list whose ids count
    up from 1, fed by the submit handler and by the reply that arrives after
    it. */
module ChatLog {
  import opened Common
  import opened ChatReplies

  const WelcomeText := "Welcome to our delivery assistant. How can I help you today?"

  /** The log's ids are its positions counted from 1. */
  predicate SequentialIds(log: seq<Message>) {
    forall k :: 0 <= k < |log| ==> log[k].id == k + 1
  }

  /** The log after one more message: `[...prev, {id: prev.length + 1, ...}]`.
      Nothing already logged changes, and the ids stay sequential. */
  function Appended(log: seq<Message>, text: string, sender: Sender): (r: seq<Message>)
    ensures |r| == |log| + 1 && r[..|log|] == log
    ensures r[|log|].text == text && r[|log|].sender == sender
    ensures SequentialIds(log) ==> SequentialIds(r)
  {
    log + [Message(|log| + 1, text, sender)]
  }

  /** Sequential ids are distinct. */
  lemma SequentialIdsDistinct(log: seq<Message>, i: nat, j: nat)
    requires SequentialIds(log) && i < |log| && j < |log| && i != j
    ensures log[i].id != log[j].id
  {
  }

  /** What a submit hands on to the (simulated) model: the question and the
      prompt built for it. */
  datatype PendingQuery = PendingQuery(query: string, prompt: string)

  class Chatbot {
    /** The instructions every prompt starts with. */
    const instructions: string
    var messages: seq<Message>
    var inputValue: string
    var loading: bool

    ghost predicate Valid()
      reads this
    {
      messages != [] && SequentialIds(messages)
    }

    constructor ()
      ensures Valid()
      ensures messages == [Message(1, WelcomeText, Bot)] && inputValue == [] && !loading
      ensures instructions == PromptHead
    {
      instructions := PromptHead;
      messages := [Message(1, WelcomeText, Bot)];
      inputValue := "";
      loading := false;
    }

    method ChangeInput(value: string)
      modifies this`inputValue
      ensures inputValue == value
    {
      inputValue := value;
    }

    /** The send button. A blank input does nothing. Otherwise the user's
        message is logged with the next id, the input is cleared and the
        question goes to the model with a prompt that quotes the five
        messages logged before it. The loading flag is already false again
        when the handler yields: the query function resets it in its
        `finally` as soon as it has handed back the pending reply. */
    method Submit() returns (pending: Option<PendingQuery>)
      requires Valid()
      modifies this`messages, this`inputValue, this`loading
      ensures Valid()
      ensures IsBlank(old(inputValue)) ==> pending.None? && unchanged(this)
      ensures !IsBlank(old(inputValue)) ==>
        && messages == Appended(old(messages), old(inputValue), User)
        && inputValue == [] && !loading
        && pending == Some(PendingQuery(old(inputValue), PromptWith(instructions, old(inputValue), RecentHistory(old(messages)))))
    {
      if IsBlank(inputValue) {
        return None;
      }
      var query := Send();
      pending := Some(query);
    }

    /** The handler past its blank check: log the question, clear the input
        and build the prompt from the messages logged before it. */
    method Send() returns (query: PendingQuery)
      requires Valid()
      modifies this`messages, this`inputValue, this`loading
      ensures Valid()
      ensures messages == Appended(old(messages), old(inputValue), User)
      ensures inputValue == [] && !loading
      ensures query == PendingQuery(old(inputValue), PromptWith(instructions, old(inputValue), RecentHistory(old(messages))))
    {
      var text := inputValue;
      var recentHistory := RecentHistory(messages);
      messages := Appended(messages, text, User);
      inputValue := "";
      loading := true;
      var prompt := PromptWith(instructions, text, recentHistory);
      loading := false;
      query := PendingQuery(text, prompt);
    }

    /** The pending reply settles: the bot's answer to `query` is logged
        with the next id. */
    method ReceiveReply(query: string)
      requires Valid()
      modifies this`messages, this`loading
      ensures Valid()
      ensures messages == Appended(old(messages), Reply(query), Bot)
      ensures messages[|messages| - 1].id == |old(messages)| + 1
      ensures !loading
    {
      messages := Appended(messages, Reply(query), Bot);
      loading := false;
    }
  }
}
