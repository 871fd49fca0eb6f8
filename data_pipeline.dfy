/** data_pipeline/: what the two front ends need of ingestion. Fetching encyclopedia pages and the
    hosted model's graph extraction are parameters; the graph database is the `GraphStore` object,
    whose state the front ends observe through `IsNotEmpty` and change through `InsertGraphData`. */
module DataPipeline {

  /** A text chunk produced by the document loader. */
  datatype Document = Document(pageContent: string)

  datatype Relationship = Relationship(source: string, kind: string, target: string)

  /** What the hosted model extracts from one chunk. */
  datatype Extraction = Extraction(nodes: seq<string>, relationships: seq<Relationship>)

  /** A graph document: the extraction together with the chunk it came from. */
  datatype GraphDocument = GraphDocument(nodes: seq<string>, relationships: seq<Relationship>, source: Document)

  /** A node of the graph: an extracted entity, or the source chunk kept by `include_source=True`. */
  datatype GraphNode = EntityNode(id: string) | DocumentNode(doc: Document)

  /** The encyclopedia topic both front ends load when the graph is empty. */
  const Topic: string := "Elizabeth I"

  /** The external calls a pipeline run makes, in order. */
  datatype Step = CheckGraph | LoadDocuments | ExtractGraph | InsertGraph

  /** `extract_graph_documents`: one graph document per chunk, each carrying its chunk as source. */
  function ExtractGraphDocuments(documents: seq<Document>, extract: Document -> Extraction): (r: seq<GraphDocument>)
    ensures |r| == |documents|
    ensures forall i | 0 <= i < |r| :: r[i].source == documents[i]
  {
    if documents == [] then []
    else [GraphDocument(extract(documents[0]).nodes, extract(documents[0]).relationships, documents[0])]
         + ExtractGraphDocuments(documents[1..], extract)
  }

  /** The nodes `add_graph_documents` merges into the graph for `docs`: entities and source chunks. */
  function NodesOf(docs: seq<GraphDocument>): (r: set<GraphNode>)
    ensures forall d | d in docs :: DocumentNode(d.source) in r
  {
    (set d, id | d in docs && id in d.nodes :: EntityNode(id)) + (set d | d in docs :: DocumentNode(d.source))
  }

  /** The graph database, as the pipeline sees it. */
  class GraphStore {
    var nodes: set<GraphNode>
    /** Every batch `insert_graph_data` has written, oldest first. */
    var batches: seq<seq<GraphDocument>>

    constructor (initial: set<GraphNode>)
      ensures nodes == initial && batches == []
    {
      nodes := initial;
      batches := [];
    }

    /** `graph_is_not_empty`: `MATCH (n) RETURN COUNT(n)` is positive. */
    predicate IsNotEmpty()
      reads this
    {
      nodes != {}
    }

    /** `insert_graph_data`: merges the documents' nodes and logs the batch. */
    method InsertGraphData(docs: seq<GraphDocument>)
      modifies this
      ensures nodes == old(nodes) + NodesOf(docs)
      ensures batches == old(batches) + [docs]
    {
      nodes := nodes + NodesOf(docs);
      batches := batches + [docs];
    }
  }

  /** A non-empty batch leaves the graph non-empty: every graph document brings its source chunk. */
  lemma NonEmptyBatchFillsGraph(docs: seq<GraphDocument>, before: set<GraphNode>)
    requires docs != []
    ensures before + NodesOf(docs) != {}
  {
    assert DocumentNode(docs[0].source) in before + NodesOf(docs);
  }
}
