# wikipedia-graph-rag, modelled in Dafny

The system answers questions about Elizabeth I. It ingests encyclopedia pages into a Neo4j
knowledge graph, once. For each question it builds a context from two sources:

- relationship facts from the graph;
- text chunks from a hybrid vector index.

A hosted language model then answers from that context. There are two front ends. `main.py` is a
command-line loop. `app.py` is a Streamlit page that re-runs its script on every interaction and
keeps its state in `st.session_state`.

This project models the deterministic part of that system. The hosted model, the graph database and
the vector index are outside it and appear as function-typed parameters. Those parameters are the
entity extractor, the relationship query, the similarity search, the question condenser and the
chain's `invoke`.

The modules are:

- `Common`: `Option`, `Result` and the `(question, answer)` exchange type.
- `Text`: Python's `str.strip` over Python's whitespace set, `str.join`, and an ASCII `lower`.
- `Retriever` (rag_system/retriever.py):
  - `structured_retriever` is an imperative loop. It is proved equal to the fold `StructuredData`.
  - `combined_retriever` returns the fixed-format context string.
  - The entity chain and the similarity search run outside any `try`. When the entity chain raises,
    both methods raise. When the similarity search raises, only `combined_retriever` does. The model
    returns `Err`.
- `Chain` (rag_system/chain.py):
  - `_format_chat_history` is a loop proved against `FormattedHistory`, which has an inverse.
  - `SearchQuery` models the `_search_query` branch: condense the question (a model call that may raise) or pass it through.
  - `RagContext` is the context path of the conversational chain; `SimpleContext` is that of the simple chain.
  - `InputFor` is the input dictionary both front ends build.
- `DataPipeline` (data_pipeline/):
  - the documents and graph documents;
  - the `GraphStore` class (graph nodes and a log of inserted batches), with the emptiness check and the insert.
- `Cli` (main.py):
  - `data_pipeline` and `main`'s gating;
  - the `chat_interface` loop, as the method `ChatInterface`, proved against the function `Conversation`.
- `App` (app.py):
  - the stride-2 history pairing loop, proved against `ChatPairs`;
  - the `Session` class, whose three fields are the session-state keys;
  - one method per state transition, and `Run` for one script run after a user event.

The quick-action buttons append a user message that the same run never answers. The run that
follows does not answer it either, because the chat input is then empty. The message count is then
odd. As long as only answered prompts follow (no further sample-question button and no "Clear Chat
History"), every later exchange falls across a pair boundary and never reaches the history sent to
the chain. `ExchangeLost` and `UnansweredHidesLaterExchanges` prove this. A second sample-question
button makes the count even again, and so does clearing the chat. When messages
alternate, every exchange is kept (`AlternatingKeepsAll`), and a run without a quick action
preserves alternation (`Session.Run`).

## Model

| member | source | states |
|---|---|---|
| Text.StripShape | main.py:36 | the stripped string has no whitespace at either end, and it is empty exactly when the input is all whitespace |
| Text.StripIdempotent | main.py:36 | stripping twice is stripping once |
| Text.StripRightSpace | rag_system/retriever.py:77 | a trailing whitespace character added to a string does not survive a strip |
| Text.StripClean | rag_system/retriever.py:77 | a string with no whitespace at either end is its own strip |
| Text.JoinAppend | rag_system/retriever.py:68 | joining a concatenation puts exactly one separator between the joins of the two halves |
| Text.JoinAround | rag_system/retriever.py:89 | each part sits unchanged, preceded by the join of the parts before it and a separator, and followed by a separator and the join of the parts after it |
| Text.JoinEnds | rag_system/retriever.py:68 | the joined string starts with the first part and ends with the last |
| Retriever.Relationships | rag_system/retriever.py:66 | a string is kept exactly when a row carries it as a non-null, non-empty relationship; no more strings than rows |
| Retriever.RelationshipsAppend | rag_system/retriever.py:66 | the comprehension keeps row order: the relationships of a split row list are those of each part, in turn |
| Retriever.StructuredRetriever | rag_system/retriever.py:36-77 | raises when the entity chain raises; otherwise the loop over the extracted names returns the stripped fold of the per-entity contributions |
| Retriever.AccumulatedStep | rag_system/retriever.py:65-72 | visiting one more entity appends exactly that entity's contribution |
| Retriever.CombinedRetriever | rag_system/retriever.py:79-91 | returns the context for the question (the structured section and the similarity chunks in the fixed format), or the exception of the entity chain or the similarity search |
| Retriever.ContextRaises | rag_system/retriever.py:39-84 | no context is built exactly when the entity chain or the similarity search raises; the entity chain's exception wins, since it runs first |
| Retriever.ContextIsText | rag_system/retriever.py:82-89 | when neither service raises, the context is the fixed-format text over the structured section and the chunks |
| Retriever.AccumulatedAppend | rag_system/retriever.py:42 | entities contribute in the order they were extracted |
| Retriever.AccumulatedSkipsSilent | rag_system/retriever.py:45-75 | an entity whose query raises, returns no rows or only empty relationships drops out, and the entities before and after it still contribute |
| Retriever.AccumulatedIsJoinedLines | rag_system/retriever.py:38-72 | before the strip the result is every relationship line joined by newlines with a final newline, or empty when there is no line |
| Retriever.StructuredDataIsStrippedLines | rag_system/retriever.py:77 | the structured section is the stripped newline join of all relationship lines |
| Retriever.NoLinesNoStructuredData | rag_system/retriever.py:38-77 | with no entity, or no entity yielding a line, the structured section is exactly empty |
| Retriever.StructuredDataIsLines | rag_system/retriever.py:77 | when the outer lines have no outer whitespace the strip removes only the final newline |
| Retriever.ContextWithoutGraphFacts | rag_system/retriever.py:86-89 | without relationship lines the context has an empty structured section followed by the chunks |
| Retriever.ContextWithoutChunks | rag_system/retriever.py:84-89 | without similarity hits the unstructured section is empty |
| Retriever.ContextChunkAt | rag_system/retriever.py:84-89 | each chunk appears unchanged in rank order, separated from its neighbours by `#Document ` |
| Chain.FormatChatHistory | rag_system/chain.py:28-33 | the loop builds the alternating message list of the history |
| Chain.FormattedHistoryShape | rag_system/chain.py:28-33 | twice as many messages as exchanges; message 2k is the k-th question as a human message and 2k+1 the k-th answer as an AI message |
| Chain.FormattedHistoryRoundTrip | rag_system/chain.py:28-33 | reading the messages back two at a time gives the history unchanged |
| Chain.SearchQueryBranches | rag_system/chain.py:35-48 | without a non-empty history the question passes through unchanged; with one the condenser is given the formatted history and the question, and its outcome (answer or exception) is the query |
| Chain.SimpleContextIgnoresHistory | rag_system/chain.py:89-95 | the simple chain retrieves with the raw question whatever the history, and agrees with the conversational chain when there is no history |
| Chain.InputFor | main.py:45-47 | the question is kept; `chat_history` is present exactly when the history is non-empty, and then it is that history |
| Chain.FirstQuestionPassesThrough | rag_system/chain.py:37-47 | the first question of a conversation reaches the retriever unchanged |
| DataPipeline.ExtractGraphDocuments | data_pipeline/llm_processor.py:8-19 | one graph document per chunk, in order, each carrying its chunk as source |
| DataPipeline.NodesOf | data_pipeline/graph_client.py:40-49 | the source chunk of every inserted graph document becomes a node |
| DataPipeline.GraphStore.InsertGraphData | data_pipeline/graph_client.py:40-49 | the batch's nodes are merged into the graph and the batch is logged |
| DataPipeline.NonEmptyBatchFillsGraph | data_pipeline/graph_client.py:11-24 | after a non-empty insert the emptiness check sees a non-empty graph |
| Cli.RunDataPipeline | main.py:6-23 | a non-empty graph skips everything; an empty load fails and changes nothing; otherwise extraction and insertion happen once, in that order, and succeed |
| Cli.ChatInterface | main.py:25-56 | the loop's history is the conversation the lines determine |
| Cli.Start | main.py:58-65 | the chat loop runs exactly when the pipeline succeeds, that is when the graph had data or the load returned chunks; the graph is left alone when it had data or nothing was loaded, and otherwise receives exactly one batch and is then non-empty |
| Cli.RepeatedStarts | main.py:6-23 | however often the program starts against the same graph, at most one batch is inserted, and none when the graph already had data |
| Cli.ReplTurnEffect | main.py:36-53 | a line ends the loop exactly when its stripped, lower-cased form is a quit word; otherwise one exchange is appended exactly when the stripped line is non-empty and the chain answers |
| Cli.ConversationExtends | main.py:35-56 | the loop only appends, at most one exchange per line; each recorded question is stripped, non-empty and not a quit word, and its answer is what the chain returned given the earlier exchanges |
| Cli.ConversationRecordsAnswer | main.py:36-53 | a first line that is not a quit word, strips to a non-empty question and is answered puts that exchange right after the starting history |
| Cli.TurnAppends | main.py:41-53 | one turn keeps the history or appends one recorded exchange |
| Cli.ConversationStopsAtQuit | main.py:38-39 | nothing typed after a quit word is read |
| App.ChatHistoryFor | app.py:124-130 | the stride-2 loop builds the pairs of the message list |
| App.ChatPairsBound | app.py:125-126 | at most one exchange per two messages |
| App.ChatPairsAppend | app.py:124-130 | pairs are taken in message order from even positions |
| App.ChatPairsExactly | app.py:124-130 | an exchange is in the history exactly when it comes from an even index whose message is a user message followed by an assistant message |
| App.PromptNotInHistory | app.py:116-134 | the prompt just appended as a user message never appears in the history sent with it |
| App.ExchangeKept | app.py:116-139 | an exchange answered after an even number of messages is added to the history |
| App.ExchangeLost | app.py:161-171 | after an odd number of messages, as a quick action leaves, a new exchange does not reach the history |
| App.UnansweredHidesLaterExchanges | app.py:161-171 | once the message count is odd, no later answered exchange reaches the history |
| App.AlternatingKeepsAll | app.py:124-130 | when messages alternate user/assistant, every exchange is kept, the k-th from messages 2k and 2k+1 |
| App.AlternatingExtends | app.py:116-144 | an answered prompt keeps alternating messages alternating |
| App.Session.InitializeSessionState | app.py:14-21 | each missing key gets its default (no messages, no chain, data not loaded); keys already set are left unchanged |
| App.Session.LoadData | app.py:23-51 | a set flag returns success without touching the graph; a non-empty graph sets the flag; an empty load fails with the flag still unset; otherwise the data is inserted once and the flag set |
| App.Session.InitializeRagChain | app.py:53-58 | afterwards a chain is present; nothing else changes |
| App.Session.ClearChat | app.py:90-92 | the message list is emptied; nothing else changes |
| App.Session.Reload | app.py:94-97 | the flag is cleared and the chain dropped; the messages are kept |
| App.Session.AskQuickQuestion | app.py:161-171 | the button's question is appended as a user message and nothing else changes |
| App.Session.SubmitPrompt | app.py:114-144 | the prompt and then exactly one assistant message (the answer or the error text) are appended; the chain is given the pairs of the earlier messages, present only when non-empty |
| App.Session.Run | app.py:65-171 | a sidebar button changes its keys and stops the run, the other keys left as initialised; otherwise the data is loaded: the flag ends set exactly when it was set, the graph had data or the load returned chunks, and in that last case (flag unset, empty graph) the extracted batch is inserted; a failed load leaves the chain as initialised and the graph unchanged; a chain exists whenever the data is loaded, a prompt is answered only once the data is loaded, a quick action appends its question, and runs without a quick action keep messages alternating; a graph with data is never written, at most one batch is inserted, and an insert leaves the graph non-empty |
| App.RunSession | app.py:23-51 | over any sequence of runs against the same graph, each with its own event, loader and chain, including "Reload Data", at most one batch is inserted, and none when the graph already had data |

## Left out

- The hosted language model is left out: entity extraction, question condensation and answer generation are the parameters `entityNames`, `condense` and `invoke`.
- The Cypher query's semantics are left out (the case-insensitive `CONTAINS`, `LIMIT 1`, the `MENTIONS` exclusion, the `CASE` row shape). The query is a parameter returning rows or raising.
- The hybrid vector index, its embeddings and its top-k ranking are left out. The similarity search is a parameter returning chunk texts in rank order.
- Encyclopedia loading and token splitting (data_pipeline/data_loader.py) are left out. The loader is the parameter `load`.
- The graph extraction by the model is the parameter `extract`.
- `GraphStore.InsertGraphData` stores nodes as a set and logs each batch. Relationships, labels, merging by id and the embedding index are not modelled.
- `graph_is_not_empty` is modelled as "the node set is not empty". The driver session and the count query are left out.
- Exceptions from the emptiness check, the loader, the extractor, the insert and `get_rag_chain` are not modelled. They sit outside any `try` and end the program or the script run. The exceptions of the entity chain, the similarity search and the condenser are modelled as `Err`. They reach the front ends through `invoke`.
- `Cli.ChatInterface`: the chain `invoke`, the relationship query and the other services are fixed functions within one conversation. So the same input always gets the same outcome: a question typed again after a transient chain error fails again, whereas the hosted chain may answer it. The same holds for an entity name extracted twice within one retrieval. `App.RunSession` gives each script run its own loader and chain.
- `Cli.ChatInterface`: the typed lines are a finite sequence, and running out of lines ends the loop. In the source, end of input raises an uncaught `EOFError`.
- `Cli.IsQuitWord` lower-cases ASCII letters only. For the three quit words this agrees with Python's `str.lower`: no other character lower-cases to their letters.
- The printed output and the Streamlit rendering are left out: titles, spinners, success messages, the message display loop, columns and the sample-question text.
- `st.rerun` is modelled as the end of a run. The following run is another call of `Session.Run`.
- `App.Session.InitializeRagChain` records only that a chain is present. The construction in `get_rag_chain` (retriever clients, prompts, model settings) is not modelled.
- The final answer stage `prompt | llm | StrOutputParser` is not modelled beyond `invoke`. The `"question": RunnablePassthrough()` entry is not modelled either.
- config.py, data_pipeline/graph_visualization.py and rag_system/__init__.py are not part of this model. rag_system/schemas.py is not part of this model either: `Entities.names` is a sequence of strings.
