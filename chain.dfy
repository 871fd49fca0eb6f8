/** rag_system/chain.py: how the conversational chain chooses the search query and builds its
    context. The hosted model that condenses a follow-up question is the parameter `condense`. */
module Chain {
  import opened Common
  import Retriever

  /** A chat message handed to the condensation prompt. */
  datatype Message = HumanMessage(content: string) | AIMessage(content: string)

  /** The dictionary given to `chain.invoke`: `question`, and `chat_history` when the key is present. */
  datatype ChainInput = ChainInput(question: string, chatHistory: Option<seq<Exchange>>)

  /** The message list `_format_chat_history` builds: a human message then an AI message per exchange. */
  function FormattedHistory(history: seq<Exchange>): seq<Message>
  {
    if history == [] then []
    else FormattedHistory(history[..|history| - 1])
         + [HumanMessage(history[|history| - 1].0), AIMessage(history[|history| - 1].1)]
  }

  /** Reads the exchanges back from an alternating message list, two messages at a time. */
  function Exchanges(buffer: seq<Message>): seq<Exchange>
  {
    if |buffer| < 2 then []
    else Exchanges(buffer[..|buffer| - 2]) + [(buffer[|buffer| - 2].content, buffer[|buffer| - 1].content)]
  }

  /** `_format_chat_history`: appends the two messages of each exchange to `buffer`. */
  method FormatChatHistory(chatHistory: seq<Exchange>) returns (buffer: seq<Message>)
    ensures buffer == FormattedHistory(chatHistory)
  {
    buffer := [];
    for i := 0 to |chatHistory|
      invariant buffer == FormattedHistory(chatHistory[..i])
    {
      var (human, ai) := chatHistory[i];
      assert chatHistory[..i + 1][..i] == chatHistory[..i];
      buffer := buffer + [HumanMessage(human)];
      buffer := buffer + [AIMessage(ai)];
    }
    assert chatHistory[..|chatHistory|] == chatHistory;
  }

  /** Twice as many messages as exchanges, alternating human and AI, the k-th exchange at 2k and 2k+1. */
  lemma {:induction false} FormattedHistoryShape(history: seq<Exchange>)
    ensures |FormattedHistory(history)| == 2 * |history|
    ensures forall k | 0 <= k < |history| ::
      FormattedHistory(history)[2 * k] == HumanMessage(history[k].0)
      && FormattedHistory(history)[2 * k + 1] == AIMessage(history[k].1)
  {
    if history != [] {
      var front := history[..|history| - 1];
      FormattedHistoryShape(front);
      forall k | 0 <= k < |front|
        ensures FormattedHistory(history)[2 * k] == HumanMessage(history[k].0)
             && FormattedHistory(history)[2 * k + 1] == AIMessage(history[k].1)
      {
        assert front[k] == history[k];
      }
    }
  }

  /** The formatted messages determine the history: reading them back gives it unchanged. */
  lemma {:induction false} FormattedHistoryRoundTrip(history: seq<Exchange>)
    ensures Exchanges(FormattedHistory(history)) == history
  {
    if history != [] {
      var front := history[..|history| - 1];
      FormattedHistoryRoundTrip(front);
      var f := FormattedHistory(history);
      assert f[..|f| - 2] == FormattedHistory(front);
      assert history == front + [history[|history| - 1]];
    }
  }

  /** `bool(x.get("chat_history"))`: the key is present and the list is not empty. */
  predicate HasChatHistory(input: ChainInput)
  {
    input.chatHistory.Some? && input.chatHistory.value != []
  }

  /** The `_search_query` branch: condense the follow-up with the history (the model call may raise),
      or pass the question through. */
  function SearchQuery(input: ChainInput, condense: (seq<Message>, string) -> Result<string>): Result<string>
  {
    if HasChatHistory(input) then condense(FormattedHistory(input.chatHistory.value), input.question)
    else Ok(input.question)
  }

  /** The passthrough is taken exactly when there is no history; otherwise the condensed question
      is computed from the formatted history and the question. */
  lemma SearchQueryBranches(input: ChainInput, condense: (seq<Message>, string) -> Result<string>)
    ensures !HasChatHistory(input) ==> SearchQuery(input, condense) == Ok(input.question)
    ensures HasChatHistory(input) ==>
      SearchQuery(input, condense) == condense(FormattedHistory(input.chatHistory.value), input.question)
      && |FormattedHistory(input.chatHistory.value)| == 2 * |input.chatHistory.value|
  {
    if HasChatHistory(input) {
      FormattedHistoryShape(input.chatHistory.value);
    }
  }

  /** The context the conversational chain retrieves: `_search_query | retriever.combined_retriever`. */
  function RagContext(input: ChainInput, services: Retriever.Services, condense: (seq<Message>, string) -> Result<string>): Result<string>
  {
    match SearchQuery(input, condense)
    case Err(e) => Err(e)
    case Ok(query) => Retriever.Context(query, services)
  }

  /** The context the simple chain retrieves: `retriever.combined_retriever(x["question"])`. */
  function SimpleContext(input: ChainInput, services: Retriever.Services): Result<string>
  {
    Retriever.Context(input.question, services)
  }

  /** The simple chain does not look at the history, and without history both chains retrieve the same context. */
  lemma SimpleContextIgnoresHistory(input: ChainInput, services: Retriever.Services, condense: (seq<Message>, string) -> Result<string>)
    ensures forall history :: SimpleContext(input.(chatHistory := history), services) == SimpleContext(input, services)
    ensures !HasChatHistory(input) ==> RagContext(input, services, condense) == SimpleContext(input, services)
  {
  }

  /** The input the two front ends build: `chat_history` is set only when there is some. */
  function InputFor(question: string, history: seq<Exchange>): (input: ChainInput)
    ensures input.question == question
    ensures HasChatHistory(input) <==> history != []
    ensures input.chatHistory != Some([])
    ensures input.chatHistory.Some? ==> input.chatHistory.value == history
  {
    ChainInput(question, if history != [] then Some(history) else None)
  }

  /** The first question of a conversation reaches the retriever unchanged. */
  lemma FirstQuestionPassesThrough(question: string, condense: (seq<Message>, string) -> Result<string>)
    ensures SearchQuery(InputFor(question, []), condense) == Ok(question)
  {
  }
}
