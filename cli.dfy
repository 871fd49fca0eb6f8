/** main.py: the command-line front end. It runs the ingestion pipeline once and, when that
    succeeds, a read-answer loop over the lines the user types. The lines are a finite sequence;
    the chain is the function `invoke`, which may raise (`Err`). */
module Cli {
  import opened Common
  import opened Text
  import opened DataPipeline
  import Chain

  /** The words that end the loop, compared after lower-casing. */
  const QuitWords: seq<string> := ["quit", "exit", "q"]

  /** `question.lower() in ['quit', 'exit', 'q']`. */
  predicate IsQuitWord(question: string)
  {
    LowerAscii(question) in QuitWords
  }

  /** `data_pipeline`: skips everything when the graph has data, fails when nothing was loaded,
      and otherwise extracts and inserts once. */
  method RunDataPipeline(graph: GraphStore, load: string -> seq<Document>, extract: Document -> Extraction)
    returns (success: bool, steps: seq<Step>)
    modifies graph
    ensures old(graph.IsNotEmpty()) ==> success && steps == [CheckGraph] && unchanged(graph)
    ensures !old(graph.IsNotEmpty()) && load(Topic) == [] ==>
      !success && steps == [CheckGraph, LoadDocuments] && unchanged(graph)
    ensures !old(graph.IsNotEmpty()) && load(Topic) != [] ==>
      success && steps == [CheckGraph, LoadDocuments, ExtractGraph, InsertGraph]
      && graph.batches == old(graph.batches) + [ExtractGraphDocuments(load(Topic), extract)]
      && graph.nodes == old(graph.nodes) + NodesOf(ExtractGraphDocuments(load(Topic), extract))
      && graph.IsNotEmpty()
  {
    steps := [CheckGraph];
    if graph.IsNotEmpty() {
      return true, steps;
    }
    var documents := load(Topic);
    steps := steps + [LoadDocuments];
    if documents == [] {
      return false, steps;
    }
    var graphDocs := ExtractGraphDocuments(documents, extract);
    steps := steps + [ExtractGraph];
    graph.InsertGraphData(graphDocs);
    steps := steps + [InsertGraph];
    NonEmptyBatchFillsGraph(graphDocs, old(graph.nodes));
    success := true;
  }

  // ---------------------------------------------------------------- the chat loop

  /** What one typed line does: end the loop, or continue with the (possibly grown) history. */
  datatype Turn = Quit | Continue(history: seq<Exchange>)

  /** One iteration of `chat_interface`'s loop. */
  function ReplTurn(history: seq<Exchange>, line: string, invoke: Chain.ChainInput -> Result<string>): Turn
  {
    var question := Strip(line);
    if IsQuitWord(question) then Quit
    else if question == "" then Continue(history)
    else match invoke(Chain.InputFor(question, history))
      case Ok(response) => Continue(history + [(question, response)])
      case Err(_) => Continue(history)
  }

  /** The history after the loop has read `lines`, starting from `history`. */
  function Conversation(history: seq<Exchange>, lines: seq<string>, invoke: Chain.ChainInput -> Result<string>): seq<Exchange>
    decreases |lines|
  {
    if lines == [] then history
    else match ReplTurn(history, lines[0], invoke)
      case Quit => history
      case Continue(next) => Conversation(next, lines[1..], invoke)
  }

  /** `chat_interface`'s loop: read, strip, quit or skip, ask the chain, record the answer. */
  method ChatInterface(lines: seq<string>, invoke: Chain.ChainInput -> Result<string>) returns (chatHistory: seq<Exchange>)
    ensures chatHistory == Conversation([], lines, invoke)
  {
    chatHistory := [];
    var i := 0;
    while i < |lines|
      invariant 0 <= i <= |lines|
      invariant Conversation(chatHistory, lines[i..], invoke) == Conversation([], lines, invoke)
    {
      var question := Strip(lines[i]);
      assert lines[i..][0] == lines[i] && lines[i..][1..] == lines[i + 1..];
      i := i + 1;
      if IsQuitWord(question) {
        break;
      }
      if question == "" {
        continue;
      }
      var chainInput := Chain.InputFor(question, chatHistory);
      var outcome := invoke(chainInput);
      match outcome {
        case Ok(response) =>
          chatHistory := chatHistory + [(question, response)];
        case Err(_) =>
          // the error is reported and the history is left as it was
      }
    }
  }

  /** `main`: the chat loop runs only when the pipeline succeeded. */
  method Start(graph: GraphStore, load: string -> seq<Document>, extract: Document -> Extraction,
               lines: seq<string>, invoke: Chain.ChainInput -> Result<string>)
    returns (started: bool, chatHistory: seq<Exchange>)
    modifies graph
    ensures started == (old(graph.IsNotEmpty()) || load(Topic) != [])
    ensures started ==> chatHistory == Conversation([], lines, invoke)
    ensures !started ==> chatHistory == []
    ensures old(graph.IsNotEmpty()) ==> unchanged(graph)
    ensures !old(graph.IsNotEmpty()) && load(Topic) == [] ==> unchanged(graph)
    ensures !old(graph.IsNotEmpty()) && load(Topic) != [] ==>
      graph.batches == old(graph.batches) + [ExtractGraphDocuments(load(Topic), extract)]
      && graph.nodes == old(graph.nodes) + NodesOf(ExtractGraphDocuments(load(Topic), extract))
      && graph.IsNotEmpty()
  {
    var steps;
    started, steps := RunDataPipeline(graph, load, extract);
    chatHistory := [];
    if started {
      chatHistory := ChatInterface(lines, invoke);
    }
  }

  /** Starting the program again and again against the same graph ingests at most once:
      the first successful insertion makes every later check see a non-empty graph. */
  method RepeatedStarts(graph: GraphStore, loads: seq<string -> seq<Document>>, extract: Document -> Extraction,
                        lines: seq<string>, invoke: Chain.ChainInput -> Result<string>)
    modifies graph
    ensures |graph.batches| <= |old(graph.batches)| + 1
    ensures old(graph.IsNotEmpty()) ==> unchanged(graph)
    ensures |graph.batches| == |old(graph.batches)| + 1 ==> graph.IsNotEmpty()
  {
    for i := 0 to |loads|
      invariant |graph.batches| <= |old(graph.batches)| + 1
      invariant old(graph.IsNotEmpty()) ==> unchanged(graph)
      invariant |graph.batches| == |old(graph.batches)| + 1 ==> graph.IsNotEmpty()
    {
      var started, chatHistory := Start(graph, loads[i], extract, lines, invoke);
    }
  }

  // ---------------------------------------------------------------- properties of the loop

  /** One line ends the loop exactly when it is a quit word; otherwise the history is kept, or grows by
      the one exchange the chain answered, whose question is the stripped, non-empty line. */
  lemma ReplTurnEffect(history: seq<Exchange>, line: string, invoke: Chain.ChainInput -> Result<string>)
    ensures ReplTurn(history, line, invoke).Quit? <==> IsQuitWord(Strip(line))
    ensures ReplTurn(history, line, invoke).Continue? ==>
      var next := ReplTurn(history, line, invoke).history;
      var outcome := invoke(Chain.InputFor(Strip(line), history));
      if Strip(line) != "" && outcome.Ok? then next == history + [(Strip(line), outcome.value)]
      else next == history
  {
  }

  /** The loop only appends: each recorded question is stripped, non-empty and not a quit word, and its
      answer is what the chain returned when given that question and the exchanges recorded before it. */
  lemma {:induction false} ConversationExtends(history: seq<Exchange>, lines: seq<string>, invoke: Chain.ChainInput -> Result<string>)
    ensures var r := Conversation(history, lines, invoke);
      |history| <= |r| <= |history| + |lines| && r[..|history|] == history
      && forall k | |history| <= k < |r| :: Answered(r[k], r[..k], invoke)
    decreases |lines|
  {
    if lines != [] {
      var turn := ReplTurn(history, lines[0], invoke);
      if turn.Continue? {
        ConversationStep(history, lines, invoke);
        ConversationExtends(turn.history, lines[1..], invoke);
        TurnAppends(history, lines[0], invoke);
        RecordedPrefix(history, turn.history, Conversation(turn.history, lines[1..], invoke), invoke);
      }
    }
  }

  /** Whatever extends a history that kept or extended `history` by a recorded exchange extends
      `history` by recorded exchanges. */
  lemma RecordedPrefix(history: seq<Exchange>, next: seq<Exchange>, r: seq<Exchange>,
                       invoke: Chain.ChainInput -> Result<string>)
    requires next == history || (|next| == |history| + 1 && next[..|history|] == history && Answered(next[|history|], history, invoke))
    requires |next| <= |r| && r[..|next|] == next
    requires forall k | |next| <= k < |r| :: Answered(r[k], r[..k], invoke)
    ensures r[..|history|] == history
    ensures forall k | |history| <= k < |r| :: Answered(r[k], r[..k], invoke)
  {
    assert r[..|history|] == next[..|history|];
    if next != history {
      var k := |history|;
      assert r[k] == next[k] && r[..k] == history;
      assert Answered(r[k], r[..k], invoke);
    }
  }

  /** An answered line is recorded: when the first line is not a quit word, strips to a non-empty
      question and the chain answers it, that exchange follows `history` in the final history. */
  lemma ConversationRecordsAnswer(history: seq<Exchange>, lines: seq<string>, invoke: Chain.ChainInput -> Result<string>)
    requires lines != [] && Strip(lines[0]) != "" && !IsQuitWord(Strip(lines[0]))
    requires invoke(Chain.InputFor(Strip(lines[0]), history)).Ok?
    ensures var r := Conversation(history, lines, invoke);
      |r| > |history|
      && r[|history|] == (Strip(lines[0]), invoke(Chain.InputFor(Strip(lines[0]), history)).value)
  {
    var question := Strip(lines[0]);
    var next := history + [(question, invoke(Chain.InputFor(question, history)).value)];
    assert ReplTurn(history, lines[0], invoke) == Continue(next);
    ConversationStep(history, lines, invoke);
    ConversationExtends(next, lines[1..], invoke);
    var r := Conversation(next, lines[1..], invoke);
    assert r[|history|] == r[..|next|][|history|];
  }

  /** A recorded exchange: a stripped, non-empty, non-quit question, answered by the chain when it
      was given the exchanges recorded before it. */
  ghost predicate Answered(exchange: Exchange, before: seq<Exchange>, invoke: Chain.ChainInput -> Result<string>)
  {
    Strip(exchange.0) == exchange.0 && exchange.0 != "" && !IsQuitWord(exchange.0)
    && invoke(Chain.InputFor(exchange.0, before)) == Ok(exchange.1)
  }

  /** A turn that does not quit hands its history to the rest of the lines. */
  lemma ConversationStep(history: seq<Exchange>, lines: seq<string>, invoke: Chain.ChainInput -> Result<string>)
    requires lines != [] && ReplTurn(history, lines[0], invoke).Continue?
    ensures Conversation(history, lines, invoke)
         == Conversation(ReplTurn(history, lines[0], invoke).history, lines[1..], invoke)
  {
  }

  /** A turn that continues keeps the history or appends one answered exchange. */
  lemma TurnAppends(history: seq<Exchange>, line: string, invoke: Chain.ChainInput -> Result<string>)
    requires ReplTurn(history, line, invoke).Continue?
    ensures var next := ReplTurn(history, line, invoke).history;
      next == history || (|next| == |history| + 1 && next[..|history|] == history && Answered(next[|history|], history, invoke))
  {
    var q := Strip(line);
    StripIdempotent(line);
    var next := ReplTurn(history, line, invoke).history;
    if next != history {
      assert next == history + [(q, invoke(Chain.InputFor(q, history)).value)];
      assert next[..|history|] == history;
    }
  }

  /** A line that is a quit word ends the loop with the history it was given. */
  lemma ConversationQuits(history: seq<Exchange>, lines: seq<string>, invoke: Chain.ChainInput -> Result<string>)
    requires lines != [] && ReplTurn(history, lines[0], invoke).Quit?
    ensures Conversation(history, lines, invoke) == history
  {
  }

  /** Nothing typed after a quit word is read. */
  lemma {:induction false} ConversationStopsAtQuit(history: seq<Exchange>, lines: seq<string>, k: nat,
                                                    invoke: Chain.ChainInput -> Result<string>)
    requires k < |lines| && IsQuitWord(Strip(lines[k]))
    ensures Conversation(history, lines, invoke) == Conversation(history, lines[..k], invoke)
    decreases k
  {
    var prefix := lines[..k];
    var turn := ReplTurn(history, lines[0], invoke);
    if k == 0 {
      assert turn == Quit;
      ConversationQuits(history, lines, invoke);
    } else {
      assert prefix[0] == lines[0] && prefix[1..] == lines[1..][..k - 1];
      if turn.Continue? {
        ConversationStopsAtQuit(turn.history, lines[1..], k - 1, invoke);
        ConversationStep(history, lines, invoke);
        ConversationStep(history, prefix, invoke);
      } else {
        ConversationQuits(history, lines, invoke);
        ConversationQuits(history, prefix, invoke);
      }
    }
  }
}
