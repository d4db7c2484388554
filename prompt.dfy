/** The chat request of the answer path (`get_answer`, main.py:150-160): a
    fixed preamble of three messages followed by one user message that
    carries the assembled context and the question. */
module Prompt {
  import opened Wrappers

  datatype Role = System | User | Assistant

  datatype Message = Message(role: Role, content: string)

  /** The three fixed texts every request starts with: the system
      instructions, an example question and the example answer. Their
      wording is not modelled; each script has its own. */
  datatype Preamble = Preamble(instructions: string, example: string, answer: string)

  /** What `str.format` prints for the context: the text itself, or the word
      `None` when no context was assembled. */
  function Show(context: Option<string>): string
  {
    match context
    case None => "None"
    case Some(text) => text
  }

  /** The template of the last message up to the context, and between the
      context and the question. */
  const ContextHeader := "CONTEXT:\n"
  const QuestionHeader := " \nUSER QUESTION:\n"

  /** `user_message.format(context, question)`. */
  function UserMessage(context: Option<string>, question: string): string
  {
    ContextHeader + Show(context) + QuestionHeader + question + "\n"
  }

  /** The message list sent to the chat service. */
  function Messages(pre: Preamble, context: Option<string>, question: string): seq<Message>
  {
    [ Message(System, pre.instructions),
      Message(User, pre.example),
      Message(Assistant, pre.answer),
      Message(User, UserMessage(context, question)) ]
  }

  /** Every request has four messages with the roles system, user, assistant,
      user; the first three are the preamble, whatever the context and the
      question. */
  lemma OnlyLastVaries(pre: Preamble, context: Option<string>, question: string,
                       context': Option<string>, question': string)
    ensures var ms, ms' := Messages(pre, context, question), Messages(pre, context', question');
            |ms| == |ms'| == 4
            && ms[..3] == ms'[..3]
            && [ms[0].role, ms[1].role, ms[2].role, ms[3].role] == [System, User, Assistant, User]
            && ms[3].role == ms'[3].role
  {
  }

  /** The question read back from the last message, given the context it was
      built with; `None` when the message does not have the template's shape. */
  function QuestionOf(message: string, context: Option<string>): (q: Option<string>)
  {
    var head := ContextHeader + Show(context) + QuestionHeader;
    if |head| < |message| && message[..|head|] == head && message[|message| - 1] == '\n' then
      Some(message[|head|..|message| - 1])
    else None
  }

  /** The question is recovered intact from the message built with it. */
  lemma QuestionRoundTrip(context: Option<string>, question: string)
    ensures QuestionOf(UserMessage(context, question), context) == Some(question)
  {
    var head := ContextHeader + Show(context) + QuestionHeader;
    var m := UserMessage(context, question);
    assert m == head + (question + "\n");
    assert m[..|head|] == head;
    assert m[|head|..|m| - 1] == question;
  }

  /** Whatever `QuestionOf` accepts is the message built from that question:
      a message of any other shape carries no question. */
  lemma QuestionOfSound(message: string, context: Option<string>, question: string)
    requires QuestionOf(message, context) == Some(question)
    ensures message == UserMessage(context, question)
  {
    var head := ContextHeader + Show(context) + QuestionHeader;
    assert message == message[..|head|] + message[|head|..|message| - 1] + [message[|message| - 1]];
  }

  /** Distinct questions in the same context give distinct requests. */
  lemma QuestionInjective(pre: Preamble, context: Option<string>, question: string, question': string)
    requires Messages(pre, context, question) == Messages(pre, context, question')
    ensures question == question'
  {
    QuestionRoundTrip(context, question);
    QuestionRoundTrip(context, question');
    assert UserMessage(context, question) == Messages(pre, context, question)[3].content;
  }

  /** With no context assembled, the request is the one for a context that
      consists of the word `None`. */
  lemma MissingContextReadsNone(pre: Preamble, question: string)
    ensures Messages(pre, None, question) == Messages(pre, Some("None"), question)
  {
  }
}
