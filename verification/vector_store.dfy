/** The vector store: splitting a document into chunks, labelling the chunks for the
    Chroma collection, and unpacking a single-query search. The splitter and the
    collection's search are collaborators passed in as functions. */
module VectorStore {
  import opened Wrappers
  import Decimal

  // ---------------------------------------------------------------------------
  // Construction: embedding backend

  /** The embedding function the collection is created with. */
  datatype Embedding =
    | OpenAIEmbedding(apiKey: string, modelName: string)
    | SentenceTransformerEmbedding(modelName: string)

  const OpenAIEmbeddingModel: string := "text-embedding-3-small"
  const SentenceTransformerModel: string := "all-MiniLM-L6-v2"

  /** `VectorStore.__init__`: the OpenAI embedder when a truthy key is given (present and
      non-empty), the local sentence-transformer model otherwise. */
  function SelectEmbedding(openaiApiKey: Option<string>): (e: Embedding)
    ensures e.OpenAIEmbedding? <==> openaiApiKey.Some? && |openaiApiKey.value| > 0
    ensures e.OpenAIEmbedding? ==> e == OpenAIEmbedding(openaiApiKey.value, OpenAIEmbeddingModel)
    ensures e.SentenceTransformerEmbedding? ==> e.modelName == SentenceTransformerModel
  {
    match openaiApiKey
    case Some(key) =>
      if |key| > 0 then OpenAIEmbedding(key, OpenAIEmbeddingModel)
      else SentenceTransformerEmbedding(SentenceTransformerModel)
    case None => SentenceTransformerEmbedding(SentenceTransformerModel)
  }

  // ---------------------------------------------------------------------------
  // Chunking

  const ChunkSize: nat := 800
  const ChunkOverlap: nat := 200
  /** Paragraph break, line break, sentence end, space, single character. */
  const Separators: seq<string> := ["\n\n", "\n", ". ", " ", ""]

  datatype SplitterConfig = SplitterConfig(chunkSize: nat, chunkOverlap: nat, separators: seq<string>)

  /** The recursive character splitter, a library collaborator: text and configuration
      in, chunk texts out. Nothing about its output is assumed. */
  type TextSplitter = (string, SplitterConfig) -> seq<string>

  /** `chunk_text`: the splitter configured with the given size and overlap and the fixed
      separator list. */
  function ChunkText(split: TextSplitter, text: string, chunkSize: nat, chunkOverlap: nat): seq<string>
  {
    split(text, SplitterConfig(chunkSize, chunkOverlap, Separators))
  }

  /** The default configuration is one the splitter accepts: the overlap is smaller than
      the chunk size, and the separators go from coarsest to a final catch-all. */
  lemma DefaultsConsistent()
    ensures ChunkOverlap < ChunkSize
    ensures |Separators| == 5 && Separators[0] == "\n\n" && Separators[|Separators| - 1] == ""
  {
  }

  // ---------------------------------------------------------------------------
  // Ingestion

  const IdPrefix: string := "chunk_"
  const UnknownSource: string := "Unknown"
  const TitleKey: string := "title"

  /** The metadata stored beside each chunk. */
  datatype ChunkMetadata = ChunkMetadata(source: string, chunkId: nat)

  /** The arguments of the one `collection.add` call of an ingestion. */
  datatype AddRequest = AddRequest(documents: seq<string>, metadatas: seq<ChunkMetadata>, ids: seq<string>)

  /** What an ingestion hands to the collection and what it returns to its caller. */
  datatype Ingestion = Ingestion(add: AddRequest, count: nat)

  /** The id of the chunk at position i, `f"chunk_{i}"`. */
  function ChunkId(i: nat): string
  {
    IdPrefix + Decimal.FromNat(i)
  }

  /** Reads a chunk id back into the position it names; None for anything that is not
      the prefix followed by decimal digits. */
  function ParseChunkId(id: string): (r: Option<nat>)
    ensures r.Some? ==> |id| > |IdPrefix| && id[..|IdPrefix|] == IdPrefix
  {
    if |id| > |IdPrefix| && id[..|IdPrefix|] == IdPrefix
       && forall k :: |IdPrefix| <= k < |id| ==> Decimal.IsDigit(id[k])
    then Some(Decimal.ToNat(id[|IdPrefix|..]))
    else None
  }

  /** The position a chunk id was made from can be read back from it. */
  lemma ChunkIdRoundTrip(i: nat)
    ensures ParseChunkId(ChunkId(i)) == Some(i)
  {
    var digits := Decimal.FromNat(i);
    assert ChunkId(i)[|IdPrefix|..] == digits;
    assert ChunkId(i)[..|IdPrefix|] == IdPrefix;
    Decimal.RoundTrip(i);
  }

  /** Different positions get different ids. */
  lemma ChunkIdInjective(i: nat, j: nat)
    ensures ChunkId(i) == ChunkId(j) ==> i == j
  {
    ChunkIdRoundTrip(i);
    ChunkIdRoundTrip(j);
  }

  /** `doc_metadata.get("title", "Unknown")`: the title when the key is present, the
      fallback otherwise. */
  function SourceTitle(docMetadata: map<string, string>): (source: string)
    ensures TitleKey in docMetadata ==> source == docMetadata[TitleKey]
    ensures TitleKey !in docMetadata ==> source == UnknownSource
  {
    if TitleKey in docMetadata then docMetadata[TitleKey] else UnknownSource
  }

  /** `ingest_document`: chunk the text with the defaults, label chunk i with id
      `chunk_i` and metadata (source title, i), add everything in one call and report
      how many chunks there were. */
  function IngestDocument(split: TextSplitter, text: string, docMetadata: map<string, string>): (ing: Ingestion)
    ensures ing.add.documents == ChunkText(split, text, ChunkSize, ChunkOverlap)
    ensures ing.count == |ing.add.documents| == |ing.add.metadatas| == |ing.add.ids|
    ensures forall i :: 0 <= i < ing.count ==> ing.add.ids[i] == IdPrefix + Decimal.FromNat(i)
    ensures forall i :: 0 <= i < ing.count ==> ParseChunkId(ing.add.ids[i]) == Some(i)
    ensures forall i, j :: 0 <= i < j < ing.count ==> ing.add.ids[i] != ing.add.ids[j]
    ensures forall i :: 0 <= i < ing.count ==> ing.add.metadatas[i].chunkId == i
    ensures forall i :: 0 <= i < ing.count ==>
              ing.add.metadatas[i].source == (if TitleKey in docMetadata then docMetadata[TitleKey] else UnknownSource)
  {
    var chunks := ChunkText(split, text, ChunkSize, ChunkOverlap);
    var ids := seq(|chunks|, i requires 0 <= i => ChunkId(i));
    var source := SourceTitle(docMetadata);
    assert source == (if TitleKey in docMetadata then docMetadata[TitleKey] else UnknownSource);
    var metadatas := seq(|chunks|, i requires 0 <= i => ChunkMetadata(source, i));
    ChunkIdsParse(ids);
    Ingestion(AddRequest(chunks, metadatas, ids), |chunks|)
  }

  /** A list of consecutive chunk ids names each position once: every id reads back
      to its own index, so no two ids coincide. */
  lemma ChunkIdsParse(ids: seq<string>)
    requires forall i :: 0 <= i < |ids| ==> ids[i] == ChunkId(i)
    ensures forall i :: 0 <= i < |ids| ==> ParseChunkId(ids[i]) == Some(i)
    ensures forall i, j :: 0 <= i < j < |ids| ==> ids[i] != ids[j]
  {
    forall i | 0 <= i < |ids|
      ensures ParseChunkId(ids[i]) == Some(i)
    {
      ChunkIdRoundTrip(i);
    }
  }

  // ---------------------------------------------------------------------------
  // Retrieval

  /** What `collection.query` answers: one list per query text. */
  datatype QueryResult = QueryResult(
    documents: seq<seq<string>>,
    metadatas: seq<seq<ChunkMetadata>>,
    distances: seq<seq<real>>)

  /** The collection's nearest-neighbour search, a library collaborator: query texts and
      `n_results` in, ranked results out. */
  type CollectionQuery = (seq<string>, nat) -> QueryResult

  /** The results for the one query `retrieve` asks. */
  datatype Retrieval = Retrieval(documents: seq<string>, metadatas: seq<ChunkMetadata>, distances: seq<real>)

  /** Indexing `[0]` into a result list that is empty raises IndexError. */
  datatype StoreError = IndexOutOfRange

  /** `retrieve`: ask the collection about one query text and unpack the first (only)
      entry of each result list. */
  function Retrieve(query: CollectionQuery, queryText: string, topK: nat): (r: Result<Retrieval, StoreError>)
    ensures var res := query([queryText], topK);
            r.Success? <==> |res.documents| > 0 && |res.metadatas| > 0 && |res.distances| > 0
    ensures r.Failure? ==> r.error == IndexOutOfRange
    ensures r.Success? ==>
              var res := query([queryText], topK);
              r.value == Retrieval(res.documents[0], res.metadatas[0], res.distances[0])
  {
    var res := query([queryText], topK);
    if |res.documents| == 0 || |res.metadatas| == 0 || |res.distances| == 0 then Failure(IndexOutOfRange)
    else Success(Retrieval(res.documents[0], res.metadatas[0], res.distances[0]))
  }

  /** The outcome of `retrieve` is fixed by the collection's answer to that one query
      with that `n_results`; nothing else about the collection matters. */
  lemma RetrieveDependsOnlyOnOneQuery(q1: CollectionQuery, q2: CollectionQuery, queryText: string, topK: nat)
    requires q1([queryText], topK) == q2([queryText], topK)
    ensures Retrieve(q1, queryText, topK) == Retrieve(q2, queryText, topK)
  {
  }
}
