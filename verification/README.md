# Doc-reader chatbot core, modelled in Dafny

A Dafny model of the logic at the centre of a retrieval-augmented chatbot that answers questions about one Google Doc. The Streamlit front end, the Google API, Chroma and the LLM clients are left out. The model covers three pieces:

- **Document loading** (`DocLoader`). Extracting the document id from a share URL, done by two Python `str.split` calls. Flattening the Docs API JSON body (structural elements, paragraphs, paragraph elements, text runs) into one string.
- **Chunk labelling and retrieval** (`VectorStore`). Chunk i gets id `chunk_i` and metadata `{source: title or "Unknown", chunk_id: i}`; the ingestion reports the chunk count. A single-query search result is unpacked. The embedding backend is chosen from the API key. The text splitter and the collection search are collaborators passed in as functions.
- **One question-answer turn** (`Chatbot`). The backend is chosen at construction. A turn retrieves with `top_k = 3` and short-circuits to a fixed sentence when nothing comes back. Otherwise it builds the `[Section i]` context and the prompt, makes one completion request (temperature 0.3, at most 500 tokens) and appends one history entry. The language model is a collaborator passed in as a function.

Supporting modules: `Wrappers` (`Option`, `Result`), `Decimal` (the decimal numeral of a natural number and its inverse), and `Text` (`''.join`, `str.find`, `str.split`).

Facts about the code that shape the model:

- `generate_response` has no error handling. A failure to unpack the search result propagates as `Failure`; it does not become an answer string.
- When nothing is retrieved, the fixed sentence is returned and no turn is recorded.
- A recorded turn holds the whole retrieval result: documents, metadata and distances.
- The code does not check for an empty chunk list. The model returns count 0 and does not represent failures of `collection.add`.
- Section labels in the prompt are the integer `chunk_id` from the chunk metadata.

The Python files have CRLF line endings. Python reads triple-quoted literals with `\n` line breaks, so the prompt constants use `\n`.

## Model

| member | source | states |
|---|---|---|
| DocLoader.ExtractDocId | doc_loader.py:6-10 | A URL without "/d/" is returned unchanged. The id is never longer than the URL. |
| DocLoader.ExtractDocIdAfterMarker | doc_loader.py:8-9 | When "/d/" occurs, the id is the text right after its first occurrence, up to the next '/' or the end. It holds no '/' and is read in place from the URL, so it is a contiguous substring. |
| DocLoader.SegmentHeadUnique | doc_loader.py:9 | The "up to the first '/'" property picks out exactly one string, so the previous row fixes the id. |
| DocLoader.ExtractDocIdIdempotent | doc_loader.py:6-10 | Extracting the id of an extracted id changes nothing. |
| Text.FindFrom | doc_loader.py:8 | The search returns the first occurrence at or after the start, and no earlier one exists; None means no occurrence at all. This is the `'/d/' in url` test. |
| Text.Split | doc_loader.py:9 | `str.split` gives at least one piece, none longer than the input. There are at least two pieces when the separator occurs, and then the first piece is the text before its first occurrence. Without an occurrence the result is the whole string. |
| Text.SplitJoin | doc_loader.py:9 | Joining the pieces with the separator rebuilds the input. |
| Text.SplitPiecesAvoidSeparator | doc_loader.py:9 | No piece contains the separator. |
| Text.HeadBeforeChar | doc_loader.py:9 | `split('/')[0]` is a prefix with no '/'. It ends at the end of the string or right before the first '/'. |
| Text.ConcatAppend | doc_loader.py:42 | `''.join` of two lists laid end to end is the join of the first followed by the join of the second. |
| DocLoader.AppendParagraphRuns | doc_loader.py:38-40 | The inner loop appends, in order, the content of exactly those paragraph elements that carry a text run. |
| DocLoader.ExtractTextFromDoc | doc_loader.py:31-42 | A document without a body fails with the error of `.get` on None. Otherwise the result is the in-order join of every text-run content inside paragraph elements. A missing `content` list counts as empty. |
| DocLoader.ContentTextAppend | doc_loader.py:33-42 | The extracted text of two bodies laid end to end is the text of the first followed by the text of the second. |
| DocLoader.RunlessElementContributesNothing | doc_loader.py:39-40 | Inside a paragraph, inserting a paragraph element without a text run anywhere does not change the text. |
| DocLoader.ContentTextEmpty | doc_loader.py:33-42 | An empty content list gives the empty string. |
| DocLoader.SilentElementContributesNothing | doc_loader.py:36-40 | Inserting a non-paragraph element, or a paragraph with no text run, anywhere does not change the text. |
| Decimal.FromNat | vector_store.py:41 | The numeral of i is a non-empty string of digits. It has no leading zero unless i is 0. |
| Decimal.RoundTrip | vector_store.py:41 | Reading the numeral back gives i. |
| Decimal.Injective | vector_store.py:41 | Different numbers have different numerals. |
| VectorStore.SelectEmbedding | vector_store.py:8-20 | The OpenAI embedder (text-embedding-3-small) is used exactly when the key is present and non-empty. Otherwise the local all-MiniLM-L6-v2 model is used. |
| VectorStore.DefaultsConsistent | vector_store.py:27-35 | The default overlap (200) is below the default chunk size (800). The separators run from "\n\n" down to "". |
| VectorStore.ChunkIdRoundTrip | vector_store.py:41 | The position a `chunk_i` id was made from can be read back from the id. |
| VectorStore.ChunkIdInjective | vector_store.py:41 | Different positions get different ids. |
| VectorStore.ChunkIdsParse | vector_store.py:41 | In a list of consecutive chunk ids, each id reads back to its index and no two ids are equal. |
| VectorStore.SourceTitle | vector_store.py:42 | The source is the value under "title" when that key is present, "Unknown" otherwise. |
| VectorStore.IngestDocument | vector_store.py:37-50 | The documents are the splitter's output for size 800 and overlap 200. The count equals the chunk count. Ids, metadata and chunks are aligned by index. Id i is exactly `"chunk_"` followed by the decimal numeral of i, so it reads back to i. The ids are pairwise distinct. Metadata i has chunk_id i, and its source is the title when one is given, "Unknown" otherwise. |
| VectorStore.Retrieve | vector_store.py:52-63 | The search succeeds iff all three result lists hold at least one entry. It then returns the first entry of each, unchanged; otherwise it fails with the indexing error. |
| VectorStore.RetrieveDependsOnlyOnOneQuery | vector_store.py:54-57 | The outcome depends only on the collection's answer to the one query text with the given `n_results`. |
| Chatbot.SelectedBackend | chatbot.py:47 | The OpenAI client answers exactly when the `use_groq` attribute exists and is false. When it was never assigned, Groq answers. |
| Chatbot.New | chatbot.py:6-16 | A new chatbot keeps the API key and has empty history. The later attribute probe selects Groq iff Groq was requested, even though the attribute is set only on the OpenAI branch. The model name matches the backend. |
| Chatbot.SegmentLayout | chatbot.py:32 | A segment is the opening tag `"\n[Section "`, then a digit string that reads back to the chunk ordinal, then `"]: "`, then the chunk text verbatim, then a line break. |
| Chatbot.Segments | chatbot.py:28-32 | There is one segment per `zip` pair, `min(|documents|, |metadatas|)` in all, in rank order. Segment i is `"\n[Section " + chunk_id + "]: " + doc + "\n"`. |
| Chatbot.AssembleContext | chatbot.py:27-32 | The string-appending loop produces the in-order join of the segments. |
| Chatbot.ContextCitesEachSection | chatbot.py:27-32 | Each retrieved pair's tagged segment appears verbatim in the context, right after the segments of the better-ranked pairs. |
| Chatbot.ContextEmptyIff | chatbot.py:27-32 | The context is empty exactly when the documents or the metadatas are empty. |
| Chatbot.UserPrompt | chatbot.py:38-44 | The prompt starts with the fixed header, then holds the context verbatim, then the question verbatim, and ends with the fixed instructions. |
| Chatbot.GenerateResponse | chatbot.py:18-77 | The turn fails iff retrieval with top_k 3 fails. With nothing retrieved it makes no completion request and returns the fixed sentence with the state unchanged. Otherwise it makes exactly one request: the constructed backend and model, the fixed system prompt, temperature 0.3, 500 tokens. The user prompt is the fixed template filled with the context and the question, which therefore appear verbatim, context first. It returns the model's text verbatim and appends exactly one turn (query, answer, retrieval). |
| Chatbot.TurnAsksForThree | chatbot.py:21 | A turn depends on the collection only through its answer to this query with `n_results` 3. |
| Chatbot.NoResultsSkipsGenerator | chatbot.py:23-24 | When nothing is retrieved, every language model gives the same turn. The answer is the fixed sentence and the history is unchanged. |
| Chatbot.BackendFixedAtConstruction | chatbot.py:10-47 | On a chatbot built with `use_groq`, every completion request goes to Groq; built without it, every request goes to OpenAI. |
| Chatbot.ConverseAppendOnly | chatbot.py:70-75 | Over any sequence of turns, the history is append-only. Each question adds at most one entry and gets one answer. The model and backend never change. |

## Left out

- `fetch_google_doc` is left out. It is an HTTP request, a service-account file read and a Google API call, all I/O. Only the JSON parsing it hands off to is modelled.
- Paragraphs without an `elements` key and text runs without a `content` key cannot be represented. The source would raise KeyError on them, and the Docs API always supplies both keys.
- The text-splitting algorithm is a library collaborator, so no size, overlap or reconstruction property of chunks is claimed. `chunk_text` is the given splitter applied to the configuration. The `length_function=len` argument is not represented.
- Chroma is left out: collection creation, embedding, storage and nearest-neighbour ranking. The search is a given function. "At most top_k results, sorted by distance" is not enforced by the code and is not assumed. Returned metadata is assumed to have the stored shape (source, chunk_id), so the `meta['chunk_id']` KeyError path is not represented. `collection.add` is modelled as the request it is sent, not as a state change.
- Failures of `collection.add` are not represented, including the one an empty chunk list may cause. The model reports count 0 for an empty chunk list, because the code itself does not check for it.
- The OpenAI and Groq clients are network calls. The model is a given function from the request to the first choice's content. It is deterministic, which `ConverseAppendOnly` relies on only to name the answers. A `None` message content is not represented. The module-global `openai.api_key` assignment is not modelled; the key is kept in the chatbot record.
- Python truthiness of `use_groq` is modelled as a `bool`. Truthiness of the embedding key is modelled as "present and non-empty".
- There are no concurrency, timeouts or error-to-answer conversion: the code has none. Failures of collaborators other than the indexing error propagate in Python and are not modelled.
- `app.py` is left out: the Streamlit UI and session state. `Chatbot.Converse` plays the role of its question loop only to state the append-only property.
