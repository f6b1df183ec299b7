/** The retrieval-augmented chatbot: backend selection at construction, and one
    question-answer turn that retrieves three chunks, builds a citation-tagged prompt,
    asks the language model and records the turn. The collection search and the model
    completion are collaborators passed in as functions. */
module Chatbot {
  import opened Wrappers
  import opened Text
  import Decimal
  import opened VectorStore

  // ---------------------------------------------------------------------------
  // Construction and backend selection

  const GroqModel: string := "llama-3.1-8b-instant"
  const OpenAIModel: string := "gpt-4o-mini"

  /** Which chat-completion client answers. */
  datatype Backend = Groq | OpenAI

  /** One recorded turn: the question, the answer and the retrieval it was grounded in. */
  datatype Turn = Turn(query: string, answer: string, context: Retrieval)

  /** The chatbot object. `useGroqAttr` is the `use_groq` attribute: None while it has
      never been assigned, which is the case whenever Groq was requested. */
  datatype RagChatbot = RagChatbot(apiKey: string, model: string, useGroqAttr: Option<bool>, history: seq<Turn>)

  /** The backend test of `generate_response`: OpenAI exactly when the attribute exists
      and is false, Groq otherwise. */
  function SelectedBackend(bot: RagChatbot): (backend: Backend)
    ensures backend == OpenAI <==> bot.useGroqAttr == Some(false)
    ensures bot.useGroqAttr.None? ==> backend == Groq
  {
    if bot.useGroqAttr.Some? && !bot.useGroqAttr.value then OpenAI else Groq
  }

  /** `RAGChatbot.__init__`: an empty history, the model of the requested backend, and
      the attribute assigned only on the OpenAI branch, which is still enough for the
      later attribute probe to pick the requested backend. */
  function New(apiKey: string, useGroq: bool): (bot: RagChatbot)
    ensures bot.apiKey == apiKey
    ensures bot.history == []
    ensures SelectedBackend(bot) == Groq <==> useGroq
    ensures bot.model == (if SelectedBackend(bot) == Groq then GroqModel else OpenAIModel)
    ensures useGroq <==> bot.useGroqAttr.None?
  {
    if useGroq then RagChatbot(apiKey, GroqModel, None, [])
    else RagChatbot(apiKey, OpenAIModel, Some(false), [])
  }

  // ---------------------------------------------------------------------------
  // Context and prompt assembly

  const RetrievalTopK: nat := 3
  const Temperature: real := 0.3
  const MaxTokens: nat := 500

  const NoResultsAnswer: string :=
    "I couldn't find relevant information in the document to answer your question."

  const SystemPrompt: string :=
    "You are a helpful assistant that answers questions based solely on the provided document context. \n"
    + "        Always cite your sources using [Section X] format. If the information isn't in the context, say so clearly."

  const PromptHead: string := "Context from document:\n"
  const PromptMiddle: string := "\n\nUser Question: "
  const PromptTail: string :=
    "\n\nProvide a concise answer with inline citations like [Section X]. "
    + "If the answer isn't in the context, say \"This information isn't in the document.\"\n"

  const SectionOpen: string := "\n[Section "
  const SectionClose: string := "]: "

  /** One citation-tagged context segment, `f"\n[Section {chunk_id}]: {doc}\n"`. */
  function Segment(meta: ChunkMetadata, doc: string): string
  {
    SectionOpen + Decimal.FromNat(meta.chunkId) + SectionClose + doc + "\n"
  }

  /** A segment reads back: the opening tag, a numeral naming the chunk ordinal, the
      closing tag, the chunk text verbatim, and a final line break. */
  lemma SegmentLayout(meta: ChunkMetadata, doc: string)
    ensures var seg := Segment(meta, doc);
            var labelEnd := |seg| - |doc| - 1 - |SectionClose|;
            && |SectionOpen| < labelEnd
            && seg[..|SectionOpen|] == SectionOpen
            && (forall k :: |SectionOpen| <= k < labelEnd ==> Decimal.IsDigit(seg[k]))
            && Decimal.ToNat(seg[|SectionOpen|..labelEnd]) == meta.chunkId
            && seg[labelEnd..labelEnd + |SectionClose|] == SectionClose
            && seg[labelEnd + |SectionClose|..|seg| - 1] == doc
            && seg[|seg| - 1] == '\n'
  {
    var numeral := Decimal.FromNat(meta.chunkId);
    var seg := Segment(meta, doc);
    assert seg[|SectionOpen|..|SectionOpen| + |numeral|] == numeral;
    Decimal.RoundTrip(meta.chunkId);
  }

  function Min(a: nat, b: nat): nat
  {
    if a < b then a else b
  }

  /** The segments of `zip(documents, metadatas)`: one per pair, in rank order, stopping
      at the end of the shorter list. */
  function Segments(docs: seq<string>, metas: seq<ChunkMetadata>): (segs: seq<string>)
    ensures |segs| == Min(|docs|, |metas|)
    ensures forall i :: 0 <= i < |segs| ==> segs[i] == Segment(metas[i], docs[i])
  {
    if |docs| == 0 || |metas| == 0 then []
    else [Segment(metas[0], docs[0])] + Segments(docs[1..], metas[1..])
  }

  /** The context block: the segments joined in order. */
  function BuildContext(docs: seq<string>, metas: seq<ChunkMetadata>): string
  {
    Concat(Segments(docs, metas))
  }

  /** The context loop of `generate_response`, appending one segment per pair. */
  method AssembleContext(docs: seq<string>, metas: seq<ChunkMetadata>) returns (context: string)
    ensures context == BuildContext(docs, metas)
  {
    var segs := Segments(docs, metas);
    var n := Min(|docs|, |metas|);
    context := "";
    var i := 0;
    while i < n
      invariant 0 <= i <= n
      invariant context == Concat(segs[..i])
    {
      ConcatAppend(segs[..i], [segs[i]]);
      assert Concat([segs[i]]) == segs[i] + Concat([]);
      assert segs[..i + 1] == segs[..i] + [segs[i]];
      context := context + Segment(metas[i], docs[i]);
      i := i + 1;
    }
    assert segs[..n] == segs;
  }

  /** Every retrieved pair appears in the context as its tagged segment, verbatim, after
      the segments of the better-ranked pairs. */
  lemma ContextCitesEachSection(docs: seq<string>, metas: seq<ChunkMetadata>, i: nat)
    requires i < |docs| && i < |metas|
    ensures OccursAt(BuildContext(docs, metas), Segment(metas[i], docs[i]), Offset(Segments(docs, metas), i))
  {
    ConcatAt(Segments(docs, metas), i);
  }

  /** The context is empty exactly when one of the two lists is. */
  lemma ContextEmptyIff(docs: seq<string>, metas: seq<ChunkMetadata>)
    ensures BuildContext(docs, metas) == "" <==> |docs| == 0 || |metas| == 0
  {
    if |docs| > 0 && |metas| > 0 {
      ContextCitesEachSection(docs, metas, 0);
      assert |Segment(metas[0], docs[0])| > 0;
    }
  }

  /** The user instruction: the fixed template with the context and then the question
      filled in. */
  function UserPrompt(context: string, userQuery: string): (p: string)
    ensures PromptHead <= p
    ensures OccursAt(p, context, |PromptHead|)
    ensures OccursAt(p, userQuery, |PromptHead| + |context| + |PromptMiddle|)
    ensures |p| == |PromptHead| + |context| + |PromptMiddle| + |userQuery| + |PromptTail|
    ensures p[|p| - |PromptTail|..] == PromptTail
  {
    var p := PromptHead + context + PromptMiddle + userQuery + PromptTail;
    assert p[|PromptHead|..|PromptHead| + |context|] == context;
    assert p[|PromptHead| + |context| + |PromptMiddle|..|PromptHead| + |context| + |PromptMiddle| + |userQuery|] == userQuery;
    p
  }

  // ---------------------------------------------------------------------------
  // One question-answer turn

  /** The arguments of one chat-completion request. */
  datatype GeneratorCall = GeneratorCall(
    backend: Backend,
    model: string,
    system: string,
    user: string,
    temperature: real,
    maxTokens: nat)

  /** The language model, a remote collaborator: a request in, the first choice's
      message content out. */
  type Generator = GeneratorCall -> string

  /** What a turn returns, the chatbot state after it, and the completion request it
      made, if any. */
  datatype Reply = Reply(answer: string, bot: RagChatbot, call: Option<GeneratorCall>)

  /** `generate_response`. A failure of retrieval propagates; an empty retrieval answers
      with the fixed message and leaves everything alone; otherwise one completion
      request is made and its text is both returned and recorded. */
  function GenerateResponse(bot: RagChatbot, userQuery: string, query: CollectionQuery, complete: Generator)
    : (r: Result<Reply, StoreError>)
    ensures r.Failure? <==> Retrieve(query, userQuery, RetrievalTopK).Failure?
    ensures r.Success? ==>
              var retrieval := Retrieve(query, userQuery, RetrievalTopK).value;
              var reply := r.value;
              && (reply.call.None? <==> |retrieval.documents| == 0)
              && (reply.call.None? ==> reply.answer == NoResultsAnswer && reply.bot == bot)
              && (reply.call.Some? ==>
                    && reply.call.value.backend == SelectedBackend(bot)
                    && reply.call.value.model == bot.model
                    && reply.call.value.system == SystemPrompt
                    && reply.call.value.temperature == Temperature
                    && reply.call.value.maxTokens == MaxTokens
                    && reply.call.value.user == UserPrompt(BuildContext(retrieval.documents, retrieval.metadatas), userQuery)
                    && OccursAt(reply.call.value.user, BuildContext(retrieval.documents, retrieval.metadatas), |PromptHead|)
                    && OccursAt(reply.call.value.user, userQuery,
                                |PromptHead| + |BuildContext(retrieval.documents, retrieval.metadatas)| + |PromptMiddle|)
                    && reply.answer == complete(reply.call.value)
                    && reply.bot == bot.(history := bot.history + [Turn(userQuery, reply.answer, retrieval)]))
  {
    var retrieval :- Retrieve(query, userQuery, RetrievalTopK);
    if |retrieval.documents| == 0 then
      Success(Reply(NoResultsAnswer, bot, None))
    else
      var context := BuildContext(retrieval.documents, retrieval.metadatas);
      var call := GeneratorCall(SelectedBackend(bot), bot.model, SystemPrompt,
                                UserPrompt(context, userQuery), Temperature, MaxTokens);
      var answer := complete(call);
      Success(Reply(answer, bot.(history := bot.history + [Turn(userQuery, answer, retrieval)]), Some(call)))
  }

  /** Retrieval always asks for three results: the turn depends on the collection only
      through its answer to this one query with `n_results` 3. */
  lemma TurnAsksForThree(bot: RagChatbot, userQuery: string, q1: CollectionQuery, q2: CollectionQuery, complete: Generator)
    requires q1([userQuery], RetrievalTopK) == q2([userQuery], RetrievalTopK)
    ensures GenerateResponse(bot, userQuery, q1, complete) == GenerateResponse(bot, userQuery, q2, complete)
  {
  }

  /** With nothing retrieved the model is never consulted: any two models give the same
      turn, the fixed answer, and an unchanged history. */
  lemma NoResultsSkipsGenerator(bot: RagChatbot, userQuery: string, query: CollectionQuery, g1: Generator, g2: Generator)
    requires Retrieve(query, userQuery, RetrievalTopK).Success?
    requires |Retrieve(query, userQuery, RetrievalTopK).value.documents| == 0
    ensures GenerateResponse(bot, userQuery, query, g1) == GenerateResponse(bot, userQuery, query, g2)
    ensures GenerateResponse(bot, userQuery, query, g1).value.answer == NoResultsAnswer
    ensures GenerateResponse(bot, userQuery, query, g1).value.bot.history == bot.history
  {
  }

  /** The backend chosen at construction answers every turn. */
  lemma BackendFixedAtConstruction(apiKey: string, useGroq: bool, userQuery: string, query: CollectionQuery, complete: Generator)
    ensures var r := GenerateResponse(New(apiKey, useGroq), userQuery, query, complete);
            r.Success? && r.value.call.Some? ==>
              r.value.call.value.backend == (if useGroq then Groq else OpenAI)
  {
  }

  // ---------------------------------------------------------------------------
  // A sequence of turns

  /** Asking the questions one after another on the same chatbot, collecting the answers;
      the first raised error ends the sequence. */
  function Converse(bot: RagChatbot, queries: seq<string>, query: CollectionQuery, complete: Generator)
    : Result<(seq<string>, RagChatbot), StoreError>
    decreases |queries|
  {
    if |queries| == 0 then Success(([], bot))
    else
      var reply :- GenerateResponse(bot, queries[0], query, complete);
      var rest :- Converse(reply.bot, queries[1..], query, complete);
      Success(([reply.answer] + rest.0, rest.1))
  }

  /** The conversation history is append-only: earlier turns are never changed or
      dropped, each question adds at most one turn, every question gets an answer, and
      the model and backend stay as constructed. */
  lemma {:induction false} ConverseAppendOnly(bot: RagChatbot, queries: seq<string>, query: CollectionQuery, complete: Generator)
    ensures var r := Converse(bot, queries, query, complete);
            r.Success? ==>
              var (answers, last) := r.value;
              && |answers| == |queries|
              && bot.history <= last.history
              && |last.history| <= |bot.history| + |queries|
              && last.model == bot.model
              && SelectedBackend(last) == SelectedBackend(bot)
    decreases |queries|
  {
    if |queries| > 0 {
      var first := GenerateResponse(bot, queries[0], query, complete);
      if first.Success? {
        ConverseAppendOnly(first.value.bot, queries[1..], query, complete);
      }
    }
  }
}
