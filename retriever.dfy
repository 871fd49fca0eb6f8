/** rag_system/retriever.py: how the retriever turns graph rows and similar chunks into the
    context text. The hosted model that extracts entity names, the graph database that answers
    the relationship query and the hybrid vector index are parameters (`Services`). */
module Retriever {
  import opened Common
  import opened Text

  /** One row of the relationship query: its `relationship` column, `None` for a Cypher `null`. */
  datatype Row = Row(relationship: Option<string>)

  /** What `graph.query` does for one entity name: raise an exception, or return rows. */
  datatype QueryOutcome = Raised(error: string) | Rows(rows: seq<Row>)

  /** The three services the retriever calls, as functions of their input. The entity chain and the
      similarity search run outside any `try`: when they raise (`Err`), the retriever raises too. */
  datatype Services = Services(
    entityNames: string -> Result<seq<string>>,    // the structured-output entity chain: `entities.names`
    graphQuery: string -> QueryOutcome,            // the relationship query for one entity name
    similarChunks: string -> Result<seq<string>>)  // `page_content` of each similarity-search hit, in rank order

  /** Python truthiness of `rel['relationship']`: neither `None` nor the empty string. */
  predicate Truthy(row: Row)
  {
    row.relationship.Some? && row.relationship.value != ""
  }

  /** The list comprehension keeping the truthy relationships, in row order. */
  function Relationships(rows: seq<Row>): (r: seq<string>)
    ensures |r| <= |rows|
    ensures forall x :: x in r <==> x != "" && Row(Some(x)) in rows
  {
    if rows == [] then []
    else (if Truthy(rows[0]) then [rows[0].relationship.value] else []) + Relationships(rows[1..])
  }

  /** The comprehension keeps rows in order: the relationships of a split list are those of each part, in turn. */
  lemma {:induction false} RelationshipsAppend(a: seq<Row>, b: seq<Row>)
    ensures Relationships(a + b) == Relationships(a) + Relationships(b)
    decreases |a|
  {
    if a == [] {
      assert a + b == b;
    } else {
      assert (a + b)[0] == a[0] && (a + b)[1..] == a[1..] + b;
      RelationshipsAppend(a[1..], b);
    }
  }

  /** The relationship lines one entity's query yields; none when the query raised. */
  function EntityLines(outcome: QueryOutcome): seq<string>
  {
    match outcome
    case Raised(_) => []
    case Rows(rows) => Relationships(rows)
  }

  /** What one entity appends to `result`: its lines, each ended by a newline. */
  function Contribution(outcome: QueryOutcome): string
  {
    var lines := EntityLines(outcome);
    if lines == [] then "" else Join("\n", lines) + "\n"
  }

  /** `result` after the loop has visited `names`, before the final strip. */
  function Accumulated(names: seq<string>, query: string -> QueryOutcome): string
  {
    if names == [] then "" else Contribution(query(names[0])) + Accumulated(names[1..], query)
  }

  /** Every relationship line the entities yield, entity by entity, in order. */
  function AllLines(names: seq<string>, query: string -> QueryOutcome): seq<string>
  {
    if names == [] then [] else EntityLines(query(names[0])) + AllLines(names[1..], query)
  }

  /** The value `structured_retriever` returns for the extracted `names`. */
  function StructuredData(names: seq<string>, query: string -> QueryOutcome): string
  {
    Strip(Accumulated(names, query))
  }

  /** The separator placed between chunk texts. */
  const DocumentSeparator: string := "#Document "

  /** The context string: the structured section, then the chunk texts joined by `#Document `. */
  function ContextText(structured: string, chunks: seq<string>): string
  {
    "Structured data:\n" + structured + "\nUnstructured data:\n" + Join(DocumentSeparator, chunks)
  }

  /** What `structured_retriever` yields for `question`: the structured section, or the exception
      the entity chain raised. */
  function StructuredRetrieval(question: string, services: Services): Result<string>
  {
    match services.entityNames(question)
    case Err(e) => Err(e)
    case Ok(names) => Ok(StructuredData(names, services.graphQuery))
  }

  /** What `combined_retriever` yields for `question`: the context, or the first exception raised
      by the entity chain or by the similarity search. */
  function Context(question: string, services: Services): Result<string>
  {
    match StructuredRetrieval(question, services)
    case Err(e) => Err(e)
    case Ok(structured) =>
      match services.similarChunks(question)
      case Err(e) => Err(e)
      case Ok(chunks) => Ok(ContextText(structured, chunks))
  }

  /** `structured_retriever`: grows `result` entity by entity, swallowing a failed query, then strips it. */
  method StructuredRetriever(question: string, services: Services) returns (outcome: Result<string>)
    ensures outcome == StructuredRetrieval(question, services)
  {
    var result := "";
    var entities := services.entityNames(question);
    if entities.Err? {
      return Err(entities.error);
    }
    var names := entities.value;
    for i := 0 to |names|
      invariant result == Accumulated(names[..i], services.graphQuery)
    {
      ghost var before := result;
      var response := services.graphQuery(names[i]);
      match response {
        case Raised(_) =>
          // the exception is reported and the loop goes on with the next entity
        case Rows(rows) =>
          if rows != [] {
            var relationships := Relationships(rows);
            if relationships != [] {
              result := result + Join("\n", relationships) + "\n";
            }
          }
      }
      assert result == before + Contribution(response);
      AccumulatedStep(names, i, services.graphQuery);
    }
    assert names[..|names|] == names;
    outcome := Ok(Strip(result));
  }

  /** One more entity visited: its contribution is appended. */
  lemma AccumulatedStep(names: seq<string>, i: nat, query: string -> QueryOutcome)
    requires i < |names|
    ensures Accumulated(names[..i + 1], query) == Accumulated(names[..i], query) + Contribution(query(names[i]))
  {
    assert names[..i + 1] == names[..i] + [names[i]];
    AccumulatedAppend(names[..i], [names[i]], query);
    assert Accumulated([names[i]], query) == Contribution(query(names[i])) + Accumulated([], query);
  }

  /** `combined_retriever`: the structured section and the similarity-search chunks in one string. */
  method CombinedRetriever(question: string, services: Services) returns (finalData: Result<string>)
    ensures finalData == Context(question, services)
  {
    var structuredData := StructuredRetriever(question, services);
    if structuredData.Err? {
      return Err(structuredData.error);
    }
    var hits := services.similarChunks(question);
    if hits.Err? {
      return Err(hits.error);
    }
    var unstructuredData := hits.value;
    finalData := Ok("Structured data:\n" + structuredData.value + "\nUnstructured data:\n"
                    + Join(DocumentSeparator, unstructuredData));
  }

  /** No context is built when the entity chain or the similarity search raises; the entity
      chain's exception comes first, since it runs first. */
  lemma ContextRaises(question: string, services: Services)
    ensures Context(question, services).Err?
        <==> services.entityNames(question).Err? || services.similarChunks(question).Err?
    ensures services.entityNames(question).Err? ==>
      Context(question, services) == Err(services.entityNames(question).error)
    ensures services.entityNames(question).Ok? && services.similarChunks(question).Err? ==>
      Context(question, services) == Err(services.similarChunks(question).error)
  {
  }

  // ---------------------------------------------------------------- structured section

  /** Entities contribute in the order they were extracted. */
  lemma {:induction false} AccumulatedAppend(a: seq<string>, b: seq<string>, query: string -> QueryOutcome)
    ensures Accumulated(a + b, query) == Accumulated(a, query) + Accumulated(b, query)
    decreases |a|
  {
    if a == [] {
      assert a + b == b;
    } else {
      assert (a + b)[0] == a[0] && (a + b)[1..] == a[1..] + b;
      AccumulatedAppend(a[1..], b, query);
    }
  }

  /** An entity whose query raises, returns no rows, or returns only null or empty relationships
      drops out: the entities before and after it contribute as if it had not been extracted. */
  lemma AccumulatedSkipsSilent(before: seq<string>, name: string, after: seq<string>, query: string -> QueryOutcome)
    requires EntityLines(query(name)) == []
    ensures Accumulated(before + [name] + after, query) == Accumulated(before, query) + Accumulated(after, query)
  {
    var from := [name] + after;
    assert from[0] == name && from[1..] == after;
    assert Accumulated(from, query) == Accumulated(after, query);
    assert before + [name] + after == before + from;
    AccumulatedAppend(before, from, query);
  }

  /** Before the strip, `result` is all relationship lines joined by newlines, plus a final newline. */
  lemma {:induction false} AccumulatedIsJoinedLines(names: seq<string>, query: string -> QueryOutcome)
    ensures var lines := AllLines(names, query);
      Accumulated(names, query) == if lines == [] then "" else Join("\n", lines) + "\n"
  {
    if names != [] {
      AccumulatedIsJoinedLines(names[1..], query);
      var e := EntityLines(query(names[0]));
      var a := AllLines(names[1..], query);
      if e == [] {
        assert e + a == a;
      } else if a == [] {
        assert e + a == e;
      } else {
        JoinAppend("\n", e, a);
      }
    }
  }

  /** The structured section is the newline-joined relationship lines, stripped. */
  lemma StructuredDataIsStrippedLines(names: seq<string>, query: string -> QueryOutcome)
    ensures StructuredData(names, query) == Strip(Join("\n", AllLines(names, query)))
  {
    AccumulatedIsJoinedLines(names, query);
    var lines := AllLines(names, query);
    if lines != [] {
      StripRightSpace(Join("\n", lines), '\n');
    }
  }

  /** With no extracted entity, or none that yields a relationship, the structured section is empty. */
  lemma {:induction false} NoLinesNoStructuredData(names: seq<string>, query: string -> QueryOutcome)
    requires forall i | 0 <= i < |names| :: EntityLines(query(names[i])) == []
    ensures AllLines(names, query) == []
    ensures StructuredData(names, query) == ""
  {
    if names != [] {
      NoLinesNoStructuredData(names[1..], query);
    }
    AccumulatedIsJoinedLines(names, query);
  }

  /** When the lines have no whitespace at their outer ends, the strip removes only the final newline. */
  lemma StructuredDataIsLines(names: seq<string>, query: string -> QueryOutcome)
    requires var lines := AllLines(names, query);
      lines != [] && lines[0] != [] && lines[|lines| - 1] != []
      && !IsSpace(lines[0][0]) && !IsSpace(lines[|lines| - 1][|lines[|lines| - 1]| - 1])
    ensures StructuredData(names, query) == Join("\n", AllLines(names, query))
  {
    StructuredDataIsStrippedLines(names, query);
    var lines := AllLines(names, query);
    JoinEnds("\n", lines);
    StripClean(Join("\n", lines));
  }

  // ---------------------------------------------------------------- combined context

  /** When neither service raises, the context is the text built from the structured section and the chunks. */
  lemma ContextIsText(question: string, services: Services)
    requires services.entityNames(question).Ok? && services.similarChunks(question).Ok?
    ensures Context(question, services)
         == Ok(ContextText(StructuredData(services.entityNames(question).value, services.graphQuery),
                           services.similarChunks(question).value))
  {
    var names := services.entityNames(question).value;
    assert services.entityNames(question) == Ok(names);
    assert StructuredRetrieval(question, services) == Ok(StructuredData(names, services.graphQuery));
    assert services.similarChunks(question) == Ok(services.similarChunks(question).value);
  }

  /** With no relationship lines the context holds an empty structured section and the chunks. */
  lemma ContextWithoutGraphFacts(question: string, services: Services)
    requires services.entityNames(question).Ok? && services.similarChunks(question).Ok?
    requires AllLines(services.entityNames(question).value, services.graphQuery) == []
    ensures StructuredData(services.entityNames(question).value, services.graphQuery) == ""
    ensures Context(question, services) == Ok(ContextText("", services.similarChunks(question).value))
  {
    StructuredDataIsStrippedLines(services.entityNames(question).value, services.graphQuery);
    ContextIsText(question, services);
  }

  /** Without similarity-search hits the unstructured section is empty. */
  lemma ContextWithoutChunks(question: string, services: Services)
    requires services.entityNames(question).Ok? && services.similarChunks(question) == Ok([])
    ensures Context(question, services)
         == Ok("Structured data:\n" + StructuredData(services.entityNames(question).value, services.graphQuery)
               + "\nUnstructured data:\n")
  {
    ContextIsText(question, services);
    var structured := StructuredData(services.entityNames(question).value, services.graphQuery);
    assert services.similarChunks(question).value == [];
    assert Join(DocumentSeparator, []) == "";
    assert ContextText(structured, []) == "Structured data:\n" + structured + "\nUnstructured data:\n";
  }

  /** In the context text each chunk appears unchanged, after the chunks ranked before it, each
      separated by `#Document `. */
  lemma ContextTextChunkAt(structured: string, chunks: seq<string>, k: nat)
    requires k < |chunks|
    ensures ContextText(structured, chunks)
      == "Structured data:\n" + structured + "\nUnstructured data:\n"
         + (if k == 0 then "" else Join(DocumentSeparator, chunks[..k]) + DocumentSeparator)
         + chunks[k]
         + (if k + 1 == |chunks| then "" else DocumentSeparator + Join(DocumentSeparator, chunks[k + 1..]))
  {
    var prefix := "Structured data:\n" + structured + "\nUnstructured data:\n";
    var before := if k == 0 then "" else Join(DocumentSeparator, chunks[..k]) + DocumentSeparator;
    var after := if k + 1 == |chunks| then "" else DocumentSeparator + Join(DocumentSeparator, chunks[k + 1..]);
    JoinAround(DocumentSeparator, chunks, k);
    assert prefix + (before + chunks[k] + after) == prefix + before + chunks[k] + after;
  }

  /** Each chunk appears unchanged in the context, after the chunks ranked before it, each separated
      by `#Document `. */
  lemma ContextChunkAt(question: string, services: Services, k: nat)
    requires services.entityNames(question).Ok? && services.similarChunks(question).Ok?
    requires k < |services.similarChunks(question).value|
    ensures var chunks := services.similarChunks(question).value;
      var structured := StructuredData(services.entityNames(question).value, services.graphQuery);
      Context(question, services)
      == Ok("Structured data:\n" + structured + "\nUnstructured data:\n"
            + (if k == 0 then "" else Join(DocumentSeparator, chunks[..k]) + DocumentSeparator)
            + chunks[k]
            + (if k + 1 == |chunks| then "" else DocumentSeparator + Join(DocumentSeparator, chunks[k + 1..])))
  {
    ContextIsText(question, services);
    ContextTextChunkAt(StructuredData(services.entityNames(question).value, services.graphQuery),
                       services.similarChunks(question).value, k);
  }
}
