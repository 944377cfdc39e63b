/**
 * The chat widget (VicBot): a transcript, the text field and a loading flag.
 * A submit is split in two steps around the one network request, which is not
 * modelled: BeginSubmit runs up to the request and returns the prompt it would
 * send; Complete runs from the request's abstract Outcome to the end of the
 * handler, `finally` included.
 */
module VicBot {
  import opened Wrappers
  import JsString

  datatype Role = User | Bot

  datatype ChatMessage = ChatMessage(role: Role, text: string)

  /**
   * What the request came to: a response whose status is not ok, a thrown
   * error (fetch rejected, or the body was not JSON), or an ok response whose
   * first candidate's text is present or absent.
   */
  datatype Outcome = HttpNotOk(status: int) | Thrown | Ok(candidateText: Option<string>)

  const Greeting: string :=
    "Hi there. I'm a custom-trained assistant for Vic. Ask me about his experience with executive engagement, AI outreach, or event design."

  /** The fixed biography the model is told to answer from, sentence by sentence. */
  const ResumeContext: string :=
    "You are Vic Akosile's AI assistant. "
    + "Answer questions based on this context: Vic is a Board & C-Suite Engagement Leader. "
    + "Key achievements: scaled TechWorkersClub to 30k senior tech leaders; "
    + "launched a Global Commercial Leadership Academy at Cloudflare with 97% satisfaction; "
    + "directed a leadership program at Accenture with 94 NPS; "
    + "drove a 3.8x lift in C-suite engagement for Artaic using AI outreach; "
    + "influenced $42M in pipeline from a single VIP dinner. "
    + "Core skills: Executive Community Building, Event Design, Influencer Recruitment, Gen-AI Content & Outreach, NPS & Engagement Analytics, GRC Fluency. "
    + "He has an M.A. from Harvard and is the 2025 ESG Board Director of the Year. "
    + "Be helpful and concise."

  const QuestionCue: string := "\n\nQuestion: "
  const AnswerCue: string := "\n\nAnswer:"

  const NoAnswerFallback: string :=
    "I'm sorry, I couldn't process that. Please ask about Vic's professional experience."
  const ConnectionFallback: string :=
    "Apologies, I'm having trouble connecting. Please try again later."

  /**
   * The submit guard: a submit goes ahead only when no request is in flight
   * and the input holds something besides white space.
   */
  predicate Accepts(input: string, isLoading: bool)
    ensures Accepts(input, isLoading) <==>
      !isLoading && exists i :: 0 <= i < |input| && !JsString.IsWhiteSpace(input[i])
  {
    !JsString.AllWhiteSpace(input) && !isLoading
  }

  /** Accepts is the handler's early-return test `!input.trim() || isLoading` negated. */
  lemma AcceptsIsTrimGuard(input: string, isLoading: bool)
    ensures Accepts(input, isLoading) <==> (JsString.Trim(input) != "" && !isLoading)
  {
  }

  /**
   * The prompt sent to the model: the context, the question cue, the raw
   * question, the answer cue. The widget always passes ResumeContext; the
   * lemmas below hold for any context.
   */
  function Prompt(context: string, question: string): (prompt: string)
    ensures |prompt| == |context| + |QuestionCue| + |question| + |AnswerCue|
    ensures prompt[..|context|] == context
    ensures prompt[|prompt| - |AnswerCue|..] == AnswerCue
  {
    context + QuestionCue + question + AnswerCue
  }

  /** Reads the question back out of a prompt built on `context`; None for any other string. */
  function QuestionOf(context: string, prompt: string): Option<string> {
    var head := context + QuestionCue;
    if |prompt| >= |head| + |AnswerCue|
       && prompt[..|head|] == head
       && prompt[|prompt| - |AnswerCue|..] == AnswerCue
    then Some(prompt[|head|..|prompt| - |AnswerCue|])
    else None
  }

  /** The question sits after the whole context and the question cue, and before the answer cue that ends the prompt. */
  lemma PromptLayout(context: string, question: string)
    ensures |Prompt(context, question)| == |context| + |QuestionCue| + |question| + |AnswerCue|
    ensures Prompt(context, question)[..|context|] == context
    ensures Prompt(context, question)[|context|..|context| + |QuestionCue|] == QuestionCue
    ensures Prompt(context, question)[|context| + |QuestionCue|..|context| + |QuestionCue| + |question|] == question
    ensures Prompt(context, question)[|context| + |QuestionCue| + |question|..] == AnswerCue
  {
  }

  /** Building a prompt loses nothing: the question can be read back out of it. */
  lemma PromptRoundTrip(context: string, question: string)
    ensures QuestionOf(context, Prompt(context, question)) == Some(question)
  {
  }

  /** Every string QuestionOf accepts is the prompt of the question it returns. */
  lemma QuestionOfSound(context: string, prompt: string)
    requires QuestionOf(context, prompt).Some?
    ensures Prompt(context, QuestionOf(context, prompt).value) == prompt
  {
  }

  /**
   * The bot's reply to one outcome: the candidate text when it is a non-empty
   * string (the handler's `||` treats "" as missing), the "couldn't process"
   * fallback for an ok response without usable text, and the connection
   * fallback for every failure. Never an empty message.
   */
  function BotReply(outcome: Outcome): (text: string)
    ensures text != ""
    ensures outcome.Ok? && outcome.candidateText.Some? && outcome.candidateText.value != ""
            ==> text == outcome.candidateText.value
    ensures outcome.Ok? && (outcome.candidateText.None? || outcome.candidateText.value == "")
            ==> text == NoAnswerFallback
    ensures !outcome.Ok? ==> text == ConnectionFallback
  {
    match outcome
    case Ok(Some(t)) => if t != "" then t else NoAnswerFallback
    case Ok(None) => NoAnswerFallback
    case _ => ConnectionFallback
  }

  /**
   * A well-formed transcript: the greeting first, then visitor and bot messages
   * alternating; it ends on an unanswered visitor message exactly while a
   * request is loading.
   */
  ghost predicate WellFormed(messages: seq<ChatMessage>, isLoading: bool) {
    |messages| >= 1
    && messages[0] == ChatMessage(Bot, Greeting)
    && (forall i :: 1 <= i < |messages| ==> messages[i].role == (if i % 2 == 1 then User else Bot))
    && (isLoading <==> |messages| % 2 == 0)
  }

  /** Appending the message whose turn it is keeps the transcript well formed and flips the loading state. */
  lemma AppendTurn(messages: seq<ChatMessage>, isLoading: bool, m: ChatMessage)
    requires WellFormed(messages, isLoading)
    requires m.role == (if isLoading then Bot else User)
    ensures WellFormed(messages + [m], !isLoading)
  {
  }

  class Widget {
    var messages: seq<ChatMessage>
    var input: string
    var isLoading: bool

    ghost predicate Valid()
      reads this
    {
      WellFormed(messages, isLoading)
    }

    /** Mounting the widget: one greeting, an empty field, nothing loading. */
    constructor ()
      ensures Valid()
      ensures messages == [ChatMessage(Bot, Greeting)] && input == "" && !isLoading
    {
      messages := [ChatMessage(Bot, Greeting)];
      input := "";
      isLoading := false;
    }

    /** The text field's onChange handler. */
    method Edit(text: string)
      requires Valid()
      modifies this`input
      ensures Valid()
      ensures input == text
    {
      input := text;
    }

    /**
     * handleSubmit up to the request. Refused (nothing changes) unless Accepts
     * holds; otherwise the raw, untrimmed input is appended as the visitor's
     * message, the field is cleared, loading starts, and the prompt to send is
     * returned.
     */
    method BeginSubmit() returns (prompt: Option<string>)
      requires Valid()
      modifies this
      ensures Valid()
      ensures prompt.Some? <==> Accepts(old(input), old(isLoading))
      ensures prompt.Some? ==>
        && prompt.value == Prompt(ResumeContext, old(input))
        && messages == old(messages) + [ChatMessage(User, old(input))]
        && input == ""
        && isLoading
      ensures prompt.None? ==>
        messages == old(messages) && input == old(input) && isLoading == old(isLoading)
    {
      var question := input;
      if !Accepts(question, isLoading) {
        return None;
      }
      AppendTurn(messages, isLoading, ChatMessage(User, question));
      messages, input, isLoading := messages + [ChatMessage(User, question)], "", true;
      prompt := Some(Prompt(ResumeContext, question));
    }

    /**
     * handleSubmit from the request's outcome on: exactly one bot message is
     * appended and, as in `finally`, loading ends whatever the outcome.
     */
    method Complete(outcome: Outcome)
      requires Valid() && isLoading
      modifies this`messages, this`isLoading
      ensures Valid() && !isLoading
      ensures messages == old(messages) + [ChatMessage(Bot, BotReply(outcome))]
    {
      AppendTurn(messages, isLoading, ChatMessage(Bot, BotReply(outcome)));
      messages := messages + [ChatMessage(Bot, BotReply(outcome))];
      isLoading := false;
    }

    /**
     * A whole handleSubmit with the request's outcome supplied: a refused submit
     * changes nothing; an accepted one grows the transcript by the visitor's
     * message and then the bot's reply, clears the field and ends idle.
     */
    method Submit(outcome: Outcome) returns (accepted: bool)
      requires Valid()
      modifies this
      ensures Valid()
      ensures accepted <==> Accepts(old(input), old(isLoading))
      ensures accepted ==>
        && messages == old(messages) + [ChatMessage(User, old(input)), ChatMessage(Bot, BotReply(outcome))]
        && input == ""
        && !isLoading
      ensures !accepted ==>
        messages == old(messages) && input == old(input) && isLoading == old(isLoading)
    {
      var prompt := BeginSubmit();
      accepted := prompt.Some?;
      if accepted {
        Complete(outcome);
      }
    }
  }
}
