/**
 * The chat widget (components/AIAssistant.tsx): a transcript that opens
 * with a greeting and grows by one user message per accepted send and one
 * assistant message when the reply settles.
 */
module Assistant {
  import opened Strings
  import opened AiReplies

  datatype Role = User | Ai

  /** A message body: the opening greeting (markup with a link) or plain text. */
  datatype Content = GreetingCard | Text(text: string)

  datatype Message = Message(role: Role, content: Content)

  const Greeting: Message := Message(Ai, GreetingCard)

  const ConnectionFallback: string := "Connection dropped. Lighter's speed is high, try sending that again!"

  /** A send goes ahead only when the input has non-whitespace content and no reply is pending. */
  predicate Accepts(input: string, isLoading: bool) {
    Trim(input) != "" && !isLoading
  }

  lemma AcceptsIff(input: string, isLoading: bool)
    ensures Accepts(input, isLoading) <==> !Blank(input) && !isLoading
  {
  }

  /**
   * The assistant message for a settled reply: the response text, the
   * fixed fallback when that text is empty or missing, or "Error: " and the
   * error's message. It is never empty.
   */
  function ReplyText(reply: AiReply): (t: string)
    ensures t != []
    ensures reply.Answered? && reply.text != "" ==> t == reply.text
    ensures reply == Answered("") || reply == NoText ==> t == ConnectionFallback
    ensures reply.Failed? ==> t == "Error: " + reply.message
  {
    match reply
    case Answered(text) => if text != "" then text else ConnectionFallback
    case NoText => ConnectionFallback
    case Failed(message) => "Error: " + message
  }

  /**
   * The shape every transcript keeps: the greeting, then user and assistant
   * messages alternating, all plain text, no user message blank and no
   * assistant message empty.
   */
  predicate WellFormed(ms: seq<Message>) {
    |ms| >= 1 && ms[0] == Greeting &&
    forall i :: 1 <= i < |ms| ==>
      ms[i].content.Text? &&
      ms[i].role == (if i % 2 == 1 then User else Ai) &&
      (ms[i].role == User ==> !Blank(ms[i].content.text)) &&
      (ms[i].role == Ai ==> ms[i].content.text != [])
  }

  function RoleCount(ms: seq<Message>, role: Role): nat {
    if ms == [] then 0 else RoleCount(ms[..|ms| - 1], role) + (if ms[|ms| - 1].role == role then 1 else 0)
  }

  /**
   * Each user message is followed by exactly one assistant message: a
   * transcript of odd length (no reply pending) has one assistant message
   * per user message plus the greeting; one of even length has the latest
   * user message still unanswered.
   */
  lemma {:induction false} EveryPromptAnsweredOnce(ms: seq<Message>)
    requires WellFormed(ms)
    ensures RoleCount(ms, User) == |ms| / 2
    ensures RoleCount(ms, Ai) == (|ms| + 1) / 2
    decreases |ms|
  {
    if |ms| > 1 {
      var init := ms[..|ms| - 1];
      assert WellFormed(init) by {
        forall i | 1 <= i < |init|
          ensures init[i] == ms[i]
        {
        }
      }
      EveryPromptAnsweredOnce(init);
    } else {
      assert ms[..0] == [];
    }
  }

  class Chat {
    var isOpen: bool
    var messages: seq<Message>
    var input: string
    var isLoading: bool

    /** The transcript is well formed, and a reply is pending exactly when the last message is the user's. */
    ghost predicate Valid()
      reads this
    {
      WellFormed(messages) && (isLoading <==> |messages| % 2 == 0)
    }

    constructor ()
      ensures Valid()
      ensures messages == [Greeting] && input == "" && !isLoading && !isOpen
    {
      isOpen := false;
      messages := [Greeting];
      input := "";
      isLoading := false;
    }

    /** The launcher button and the close button. */
    method SetOpen(open: bool)
      requires Valid()
      modifies this
      ensures Valid()
      ensures isOpen == open && messages == old(messages) && input == old(input) && isLoading == old(isLoading)
    {
      isOpen := open;
    }

    /** Typing into the input, allowed while a reply is pending too. */
    method SetInput(text: string)
      requires Valid()
      modifies this
      ensures Valid()
      ensures input == text && messages == old(messages) && isLoading == old(isLoading) && isOpen == old(isOpen)
    {
      input := text;
    }

    /**
     * Send (the button or Enter): when accepted, the untrimmed input is
     * appended as a user message, the input is cleared and a reply becomes
     * pending; otherwise nothing changes.
     */
    method Send() returns (accepted: bool)
      requires Valid()
      modifies this
      ensures Valid()
      ensures accepted <==> Accepts(old(input), old(isLoading))
      ensures accepted ==> messages == old(messages) + [Message(User, Text(old(input)))] && input == "" && isLoading
      ensures !accepted ==> messages == old(messages) && input == old(input) && isLoading == old(isLoading)
      ensures isOpen == old(isOpen)
    {
      accepted := Accepts(input, isLoading);
      if accepted {
        var userMsg := input;
        input := "";
        messages := messages + [Message(User, Text(userMsg))];
        isLoading := true;
      }
    }

    /** The pending reply settles: exactly one assistant message is appended and loading ends. */
    method Receive(reply: AiReply)
      requires Valid() && isLoading
      modifies this
      ensures Valid()
      ensures messages == old(messages) + [Message(Ai, Text(ReplyText(reply)))]
      ensures !isLoading && input == old(input) && isOpen == old(isOpen)
    {
      messages := messages + [Message(Ai, Text(ReplyText(reply)))];
      isLoading := false;
    }
  }
}
