/** app.py: the browser front end. Each interaction re-runs the script against the session
    state, which keeps `messages`, `chain` and `data_loaded` between runs. Rendering is left out;
    what one run does to the session state and to the graph is modelled. */
module App {
  import opened Common
  import opened DataPipeline
  import Chain

  datatype Role = User | Assistant

  /** One entry of `st.session_state.messages`. */
  datatype ChatMessage = ChatMessage(role: Role, content: string)

  /** The value of `st.session_state.chain`: `None`, or the chain `get_rag_chain` built. */
  datatype ChainSlot = NoChain | RagChain

  /** The three sample-question buttons. */
  datatype QuickAction = WhoWas | Family | Reign

  /** What the user did before this run: nothing, a button, or a submitted chat input. */
  datatype UiEvent = NoInput | ClearChatHistory | ReloadData | ChatInput(prompt: string) | Quick(action: QuickAction)

  /** The user message a sample-question button appends. */
  function QuickQuestion(action: QuickAction): string
  {
    match action
    case WhoWas => "Who was Elizabeth I?"
    case Family => "Tell me about Elizabeth I's family"
    case Reign => "What was Elizabeth I's reign known for?"
  }

  /** The assistant message recorded for a chain call: the answer, or the error text. */
  function ReplyText(outcome: Result<string>): string
  {
    match outcome
    case Ok(response) => response
    case Err(e) => "Sorry, I encountered an error: " + e
  }

  // ---------------------------------------------------------------- chat history pairing

  /** Messages `i` and `i + 1` form an exchange the pairing loop keeps. */
  predicate PairedAt(messages: seq<ChatMessage>, i: nat)
  {
    i % 2 == 0 && i + 1 < |messages| && messages[i].role == User && messages[i + 1].role == Assistant
  }

  /** The exchange two adjacent messages give, when their roles line up. */
  function PairOf(user: ChatMessage, assistant: ChatMessage): seq<Exchange>
  {
    if user.role == User && assistant.role == Assistant then [(user.content, assistant.content)] else []
  }

  /** The `chat_history` the stride-2 loop builds from `messages`. */
  function ChatPairs(messages: seq<ChatMessage>): seq<Exchange>
  {
    if |messages| < 2 then [] else PairOf(messages[0], messages[1]) + ChatPairs(messages[2..])
  }

  /** The stride-2 loop over `range(0, len(messages) - 1, 2)`. */
  method ChatHistoryFor(messages: seq<ChatMessage>) returns (chatHistory: seq<Exchange>)
    ensures chatHistory == ChatPairs(messages)
  {
    chatHistory := [];
    var i := 0;
    while i < |messages| - 1
      invariant 0 <= i <= |messages|
      invariant chatHistory + ChatPairs(messages[i..]) == ChatPairs(messages)
    {
      ghost var before := chatHistory;
      PairingStep(before, messages, i);
      assert i + 1 < |messages|;  // the loop bound already guarantees the source's inner guard
      if i + 1 < |messages| {
        var userMsg := messages[i];
        var assistantMsg := messages[i + 1];
        if userMsg.role == User && assistantMsg.role == Assistant {
          chatHistory := chatHistory + [(userMsg.content, assistantMsg.content)];
        }
      }
      assert chatHistory == before + PairOf(messages[i], messages[i + 1]);
      i := i + 2;
    }
    PairingDone(chatHistory, messages, i);
  }

  /** One step of the loop keeps its invariant: the pair at `i` moves from the rest to the history. */
  lemma PairingStep(history: seq<Exchange>, messages: seq<ChatMessage>, i: nat)
    requires i + 1 < |messages| && history + ChatPairs(messages[i..]) == ChatPairs(messages)
    ensures (history + PairOf(messages[i], messages[i + 1])) + ChatPairs(messages[i + 2..]) == ChatPairs(messages)
  {
    var rest := messages[i..];
    var pair := PairOf(messages[i], messages[i + 1]);
    assert rest[0] == messages[i] && rest[1] == messages[i + 1] && rest[2..] == messages[i + 2..];
    assert ChatPairs(rest) == pair + ChatPairs(messages[i + 2..]);
    AppendAssociates(history, pair, ChatPairs(messages[i + 2..]));
  }

  /** Concatenation regroups freely; stated apart so the solver sees no other sequence terms. */
  lemma AppendAssociates<T>(a: seq<T>, b: seq<T>, c: seq<T>)
    ensures (a + b) + c == a + (b + c)
  {
  }

  /** With fewer than two messages left the loop's history is complete. */
  lemma PairingDone(history: seq<Exchange>, messages: seq<ChatMessage>, i: nat)
    requires |messages| - 1 <= i <= |messages| && history + ChatPairs(messages[i..]) == ChatPairs(messages)
    ensures history == ChatPairs(messages)
  {
    assert ChatPairs(messages[i..]) == [];
    assert history + [] == history;
  }

  /** At most one exchange per two messages. */
  lemma {:induction false} ChatPairsBound(messages: seq<ChatMessage>)
    ensures |ChatPairs(messages)| <= |messages| / 2
    decreases |messages|
  {
    if |messages| >= 2 {
      ChatPairsBound(messages[2..]);
    }
  }

  /** Pairing an even-length prefix and the rest separately gives the same exchanges, in message order. */
  lemma {:induction false} ChatPairsAppend(a: seq<ChatMessage>, b: seq<ChatMessage>)
    requires |a| % 2 == 0
    ensures ChatPairs(a + b) == ChatPairs(a) + ChatPairs(b)
    decreases |a|
  {
    if a == [] {
      assert a + b == b;
    } else {
      assert (a + b)[0] == a[0] && (a + b)[1] == a[1] && (a + b)[2..] == a[2..] + b;
      ChatPairsAppend(a[2..], b);
    }
  }

  /** Every kept exchange comes from an even index whose roles line up, and every such index gives one. */
  lemma {:induction false} ChatPairsExactly(messages: seq<ChatMessage>)
    ensures forall i: nat | PairedAt(messages, i) ::
      (messages[i].content, messages[i + 1].content) in ChatPairs(messages)
    ensures forall p | p in ChatPairs(messages) ::
      exists i: nat :: PairedAt(messages, i) && p == (messages[i].content, messages[i + 1].content)
    decreases |messages|
  {
    if |messages| >= 2 {
      var rest := messages[2..];
      ChatPairsExactly(rest);
      forall i: nat | PairedAt(messages, i)
        ensures (messages[i].content, messages[i + 1].content) in ChatPairs(messages)
      {
        if i >= 2 {
          assert PairedAt(rest, i - 2) && rest[i - 2] == messages[i] && rest[i - 1] == messages[i + 1];
        }
      }
      forall p | p in ChatPairs(messages)
        ensures exists i: nat :: PairedAt(messages, i) && p == (messages[i].content, messages[i + 1].content)
      {
        if p in ChatPairs(rest) {
          var j: nat :| PairedAt(rest, j) && p == (rest[j].content, rest[j + 1].content);
          assert PairedAt(messages, j + 2) && rest[j] == messages[j + 2] && rest[j + 1] == messages[j + 3];
        } else {
          assert PairedAt(messages, 0);
        }
      }
    }
  }

  /** Splits an odd-length message list before its last message, so that the last one pairs with `tail`. */
  lemma SplitBeforeLast(messages: seq<ChatMessage>, tail: seq<ChatMessage>)
    requires |messages| % 2 == 1
    ensures ChatPairs(messages + tail)
      == ChatPairs(messages[..|messages| - 1]) + ChatPairs([messages[|messages| - 1]] + tail)
  {
    var front := messages[..|messages| - 1];
    assert messages + tail == front + ([messages[|messages| - 1]] + tail);
    ChatPairsAppend(front, [messages[|messages| - 1]] + tail);
  }

  /** The prompt just appended as a user message is never part of the history sent with it. */
  lemma PromptNotInHistory(messages: seq<ChatMessage>, prompt: string)
    ensures ChatPairs(messages + [ChatMessage(User, prompt)]) == ChatPairs(messages)
  {
    var tail := [ChatMessage(User, prompt)];
    if |messages| % 2 == 0 {
      ChatPairsAppend(messages, tail);
    } else {
      SplitBeforeLast(messages, tail);
      SplitBeforeLast(messages, []);
      assert messages + [] == messages;
    }
  }

  /** An exchange appended after an even number of messages is added to the history. */
  lemma ExchangeKept(messages: seq<ChatMessage>, prompt: string, reply: string)
    requires |messages| % 2 == 0
    ensures ChatPairs(messages + [ChatMessage(User, prompt), ChatMessage(Assistant, reply)])
      == ChatPairs(messages) + [(prompt, reply)]
  {
    var exchange := [ChatMessage(User, prompt), ChatMessage(Assistant, reply)];
    ChatPairsAppend(messages, exchange);
    assert exchange[2..] == [];
  }

  /** After an odd number of messages (an unanswered user message, as a sample-question button leaves)
      a new exchange falls across a pair boundary and never reaches the history. */
  lemma ExchangeLost(messages: seq<ChatMessage>, prompt: string, reply: string)
    requires |messages| % 2 == 1
    ensures ChatPairs(messages + [ChatMessage(User, prompt), ChatMessage(Assistant, reply)]) == ChatPairs(messages)
  {
    var exchange := [ChatMessage(User, prompt), ChatMessage(Assistant, reply)];
    var m := messages[|messages| - 1];
    SplitBeforeLast(messages, exchange);
    SplitBeforeLast(messages, []);
    assert messages + [] == messages;
    assert ([m] + exchange)[2..] == [ChatMessage(Assistant, reply)];
  }

  /** User and assistant messages strictly alternating, starting with a user message, in pairs. */
  predicate Alternating(messages: seq<ChatMessage>)
  {
    |messages| % 2 == 0
    && forall i | 0 <= i < |messages| :: messages[i].role == (if i % 2 == 0 then User else Assistant)
  }

  /** When messages alternate, every exchange is kept, the k-th from messages 2k and 2k+1. */
  lemma {:induction false} AlternatingKeepsAll(messages: seq<ChatMessage>)
    requires Alternating(messages)
    ensures |ChatPairs(messages)| == |messages| / 2
    ensures forall k | 0 <= k < |messages| / 2 ::
      ChatPairs(messages)[k] == (messages[2 * k].content, messages[2 * k + 1].content)
    decreases |messages|
  {
    if messages != [] {
      var rest := messages[2..];
      AlternatingTail(messages);
      AlternatingKeepsAll(rest);
      assert ChatPairs(messages) == [(messages[0].content, messages[1].content)] + ChatPairs(rest);
      forall k | 1 <= k < |messages| / 2
        ensures ChatPairs(messages)[k] == (messages[2 * k].content, messages[2 * k + 1].content)
      {
        assert ChatPairs(messages)[k] == ChatPairs(rest)[k - 1];
        assert rest[2 * (k - 1)] == messages[2 * k] && rest[2 * (k - 1) + 1] == messages[2 * k + 1];
      }
    }
  }

  /** Dropping the first exchange of alternating messages leaves alternating messages. */
  lemma AlternatingTail(messages: seq<ChatMessage>)
    requires Alternating(messages) && messages != []
    ensures messages[0].role == User && messages[1].role == Assistant
    ensures Alternating(messages[2..])
  {
    var rest := messages[2..];
    forall i | 0 <= i < |rest| ensures rest[i].role == (if i % 2 == 0 then User else Assistant) {
      assert rest[i] == messages[i + 2];
    }
  }

  /** The messages a run of answered prompts appends: one user and one assistant message each. */
  function ExchangeMessages(exchanges: seq<Exchange>): (r: seq<ChatMessage>)
    ensures |r| == 2 * |exchanges|
  {
    if exchanges == [] then []
    else
      var last := exchanges[|exchanges| - 1];
      ExchangeMessages(exchanges[..|exchanges| - 1]) + [ChatMessage(User, last.0), ChatMessage(Assistant, last.1)]
  }

  /** Once an unanswered user message sits in the list, no exchange answered afterwards ever reaches
      the history sent to the chain. */
  lemma {:induction false} UnansweredHidesLaterExchanges(messages: seq<ChatMessage>, exchanges: seq<Exchange>)
    requires |messages| % 2 == 1
    ensures ChatPairs(messages + ExchangeMessages(exchanges)) == ChatPairs(messages)
    decreases |exchanges|
  {
    if exchanges == [] {
      assert messages + ExchangeMessages(exchanges) == messages;
    } else {
      var front := exchanges[..|exchanges| - 1];
      var last := exchanges[|exchanges| - 1];
      UnansweredHidesLaterExchanges(messages, front);
      assert messages + ExchangeMessages(exchanges)
        == (messages + ExchangeMessages(front)) + [ChatMessage(User, last.0), ChatMessage(Assistant, last.1)];
      ExchangeLost(messages + ExchangeMessages(front), last.0, last.1);
    }
  }

  /** An answered prompt keeps the messages alternating. */
  lemma AlternatingExtends(messages: seq<ChatMessage>, prompt: string, reply: string)
    requires Alternating(messages)
    ensures Alternating(messages + [ChatMessage(User, prompt), ChatMessage(Assistant, reply)])
  {
  }

  /** The message list `initialize_session_state` leaves: the stored one, or empty. */
  function MessagesOrEmpty(messages: Option<seq<ChatMessage>>): seq<ChatMessage>
  {
    if messages.None? then [] else messages.value
  }

  // ---------------------------------------------------------------- session state

  /** `st.session_state`: a key that is absent is `None`. */
  class Session {
    var messages: Option<seq<ChatMessage>>
    var chain: Option<ChainSlot>
    var dataLoaded: Option<bool>

    /** A new browser session: no key is set yet. */
    constructor ()
      ensures messages.None? && chain.None? && dataLoaded.None?
    {
      messages, chain, dataLoaded := None, None, None;
    }

    /** All three keys are set. */
    predicate Initialized()
      reads this
    {
      messages.Some? && chain.Some? && dataLoaded.Some?
    }

    /** `initialize_session_state`: sets each missing key to its default and leaves set keys alone. */
    method InitializeSessionState()
      modifies this
      ensures Initialized()
      ensures messages == if old(messages).None? then Some([]) else old(messages)
      ensures chain == if old(chain).None? then Some(NoChain) else old(chain)
      ensures dataLoaded == if old(dataLoaded).None? then Some(false) else old(dataLoaded)
    {
      if messages.None? {
        messages := Some([]);
      }
      if chain.None? {
        chain := Some(NoChain);
      }
      if dataLoaded.None? {
        dataLoaded := Some(false);
      }
    }

    /** `load_data`: trusts the flag, else checks the graph, else loads, extracts and inserts once. */
    method LoadData(graph: GraphStore, load: string -> seq<Document>, extract: Document -> Extraction)
      returns (loaded: bool, steps: seq<Step>)
      requires Initialized()
      modifies this, graph
      ensures Initialized() && messages == old(messages) && chain == old(chain)
      ensures loaded == dataLoaded.value
      ensures old(dataLoaded.value) ==> loaded && steps == [] && unchanged(graph)
      ensures !old(dataLoaded.value) && old(graph.IsNotEmpty()) ==>
        loaded && steps == [CheckGraph] && unchanged(graph)
      ensures !old(dataLoaded.value) && !old(graph.IsNotEmpty()) && load(Topic) == [] ==>
        !loaded && steps == [CheckGraph, LoadDocuments] && unchanged(graph)
      ensures !old(dataLoaded.value) && !old(graph.IsNotEmpty()) && load(Topic) != [] ==>
        loaded && steps == [CheckGraph, LoadDocuments, ExtractGraph, InsertGraph]
        && graph.batches == old(graph.batches) + [ExtractGraphDocuments(load(Topic), extract)]
        && graph.nodes == old(graph.nodes) + NodesOf(ExtractGraphDocuments(load(Topic), extract))
        && graph.IsNotEmpty()
    {
      steps := [];
      if !dataLoaded.value {
        steps := [CheckGraph];
        if graph.IsNotEmpty() {
          dataLoaded := Some(true);
          return true, steps;
        } else {
          var documents := load(Topic);
          steps := steps + [LoadDocuments];
          if documents == [] {
            return false, steps;
          }
          var graphDocs := ExtractGraphDocuments(documents, extract);
          steps := steps + [ExtractGraph];
          graph.InsertGraphData(graphDocs);
          steps := steps + [InsertGraph];
          NonEmptyBatchFillsGraph(graphDocs, old(graph.nodes));
          dataLoaded := Some(true);
          return true, steps;
        }
      }
      return true, steps;
    }

    /** `initialize_rag_chain`: builds the chain when there is none. */
    method InitializeRagChain()
      requires Initialized()
      modifies this
      ensures Initialized() && chain == Some(RagChain)
      ensures messages == old(messages) && dataLoaded == old(dataLoaded)
    {
      if chain.value == NoChain {
        chain := Some(RagChain);
      }
    }

    /** The "Clear Chat History" button. */
    method ClearChat()
      requires Initialized()
      modifies this
      ensures Initialized() && messages == Some([])
      ensures chain == old(chain) && dataLoaded == old(dataLoaded)
    {
      messages := Some([]);
    }

    /** The "Reload Data" button: the next run checks the graph and rebuilds the chain. */
    method Reload()
      requires Initialized()
      modifies this
      ensures Initialized() && dataLoaded == Some(false) && chain == Some(NoChain)
      ensures messages == old(messages)
    {
      dataLoaded := Some(false);
      chain := Some(NoChain);
    }

    /** A sample-question button: appends a user message that no answer follows in this run. */
    method AskQuickQuestion(action: QuickAction)
      requires Initialized()
      modifies this
      ensures Initialized() && messages == Some(old(messages).value + [ChatMessage(User, QuickQuestion(action))])
      ensures chain == old(chain) && dataLoaded == old(dataLoaded)
    {
      messages := Some(messages.value + [ChatMessage(User, QuickQuestion(action))]);
    }

    /** A submitted prompt: appended as a user message, then exactly one assistant message follows,
        holding the chain's answer or the error text. The history sent along is that of the earlier
        messages, and `chat_history` is present only when it is not empty. */
    method SubmitPrompt(prompt: string, invoke: Chain.ChainInput -> Result<string>)
      returns (chainInput: Chain.ChainInput)
      requires Initialized()
      modifies this
      ensures chainInput == Chain.InputFor(prompt, ChatPairs(old(messages).value))
      ensures Initialized()
      ensures messages == Some(old(messages).value
                               + [ChatMessage(User, prompt), ChatMessage(Assistant, ReplyText(invoke(chainInput)))])
      ensures chain == old(chain) && dataLoaded == old(dataLoaded)
    {
      messages := Some(messages.value + [ChatMessage(User, prompt)]);
      var chatHistory := ChatHistoryFor(messages.value);
      PromptNotInHistory(old(messages).value, prompt);
      chainInput := Chain.InputFor(prompt, chatHistory);
      var reply := ReplyText(invoke(chainInput));
      messages := Some(messages.value + [ChatMessage(Assistant, reply)]);
      assert messages.value == old(messages).value + [ChatMessage(User, prompt), ChatMessage(Assistant, reply)];
    }

    /** One run of the script after `event`. A sidebar button stops the run (`st.rerun`) before the
        data is loaded; otherwise the data is loaded, the chain is built once the data is there, a
        submitted prompt is answered, and a sample-question button appends its question last. */
    method Run(event: UiEvent, graph: GraphStore, load: string -> seq<Document>, extract: Document -> Extraction,
               invoke: Chain.ChainInput -> Result<string>)
      modifies this, graph
      ensures Initialized()
      ensures old(graph.IsNotEmpty()) ==> unchanged(graph)
      ensures |graph.batches| <= |old(graph.batches)| + 1
      ensures |graph.batches| == |old(graph.batches)| + 1 ==> graph.IsNotEmpty()
      ensures event.ClearChatHistory? ==>
        messages == Some([]) && unchanged(graph)
        && chain == (if old(chain).None? then Some(NoChain) else old(chain))
        && dataLoaded == (if old(dataLoaded).None? then Some(false) else old(dataLoaded))
      ensures event.ReloadData? ==>
        dataLoaded == Some(false) && chain == Some(NoChain) && messages == Some(MessagesOrEmpty(old(messages)))
        && unchanged(graph)
      ensures !event.ClearChatHistory? && !event.ReloadData? ==>
        (dataLoaded == Some(true) ==> chain == Some(RagChain))
        && (old(dataLoaded) == Some(true) ==> unchanged(graph))
      ensures !event.ClearChatHistory? && !event.ReloadData? ==>
        dataLoaded == Some(old(dataLoaded) == Some(true) || old(graph.IsNotEmpty()) || load(Topic) != [])
      ensures !event.ClearChatHistory? && !event.ReloadData? && dataLoaded == Some(false) ==>
        chain == (if old(chain).None? then Some(NoChain) else old(chain)) && unchanged(graph)
      ensures !event.ClearChatHistory? && !event.ReloadData? && old(dataLoaded) != Some(true)
              && !old(graph.IsNotEmpty()) && load(Topic) != [] ==>
        graph.batches == old(graph.batches) + [ExtractGraphDocuments(load(Topic), extract)]
      ensures event.ChatInput? && event.prompt != "" && dataLoaded == Some(true) ==>
        messages == Some(MessagesOrEmpty(old(messages))
                         + [ChatMessage(User, event.prompt),
                            ChatMessage(Assistant, ReplyText(invoke(Chain.InputFor(event.prompt, ChatPairs(MessagesOrEmpty(old(messages)))))))])
      ensures (event.NoInput? || (event.ChatInput? && (event.prompt == "" || dataLoaded == Some(false)))) ==>
        messages == Some(MessagesOrEmpty(old(messages)))
      ensures event.Quick? ==>
        messages == Some(MessagesOrEmpty(old(messages)) + [ChatMessage(User, QuickQuestion(event.action))])
      ensures !event.Quick? && Alternating(MessagesOrEmpty(old(messages))) ==> Alternating(messages.value)
    {
      InitializeSessionState();
      if event.ClearChatHistory? {
        ClearChat();
        return;
      }
      if event.ReloadData? {
        Reload();
        return;
      }
      var loaded, steps := LoadData(graph, load, extract);
      if loaded {
        InitializeRagChain();
        if event.ChatInput? && event.prompt != "" {
          var chainInput := SubmitPrompt(event.prompt, invoke);
          if Alternating(old(MessagesOrEmpty(messages))) {
            AlternatingExtends(old(MessagesOrEmpty(messages)), event.prompt, ReplyText(invoke(chainInput)));
          }
        }
      }
      if event.Quick? {
        AskQuickQuestion(event.action);
      }
    }
  }

  /** A browser session: one script run per entry of `runs`, against the same graph. Each run has its
      own event, loader and chain, so a load that returns nothing or a chain call that raises may
      succeed on a later run. However the user clicks (including "Reload Data", which makes the next
      run check the graph again), at most one batch is ever inserted, and none when the graph already
      had data. */
  method RunSession(session: Session, runs: seq<(UiEvent, string -> seq<Document>, Chain.ChainInput -> Result<string>)>,
                    graph: GraphStore, extract: Document -> Extraction)
    modifies session, graph
    ensures |graph.batches| <= |old(graph.batches)| + 1
    ensures old(graph.IsNotEmpty()) ==> unchanged(graph)
    ensures |graph.batches| == |old(graph.batches)| + 1 ==> graph.IsNotEmpty()
  {
    for i := 0 to |runs|
      invariant |graph.batches| <= |old(graph.batches)| + 1
      invariant old(graph.IsNotEmpty()) ==> unchanged(graph)
      invariant |graph.batches| == |old(graph.batches)| + 1 ==> graph.IsNotEmpty()
    {
      var (event, load, invoke) := runs[i];
      session.Run(event, graph, load, extract, invoke);
    }
  }
}
