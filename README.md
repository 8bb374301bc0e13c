# Conversational retrieval QA over a document corpus: a verified model

This project models in Dafny the hand-written logic of a chatbot that
answers questions over a private document corpus with LangChain, OpenAI and
Pinecone. It covers three pieces:

- **The conversational retrieval chain** (`ConversationalChain`,
  `conversational_chain.dfy`). `CustomConversationalRetrievalQAChain` is a
  class. `Call` models its `_call`. It checks the input keys. It condenses
  the follow-up question with the question-generator chain only when the
  chat-history string is non-empty, and it requires that chain to return
  exactly one value. It then retrieves documents for the condensed question.
  With no documents and a configured fallback chain, the fallback chain
  answers the *original* question. Otherwise the combine-documents chain
  answers from the documents, and the documents are attached as
  `sourceDocuments` when asked for. The four collaborators are function
  values. `Call` returns a ghost trace of the collaborator calls it made,
  each with its inputs, so its contract covers which calls happened, in
  which order and with what. The model also covers the constructor, which
  keeps the fallback chain only when a question generator is given, and
  `fromLLM`, which builds a fallback chain only from a non-empty fallback
  template.
- **The score-threshold retriever** (`ScoreThresholdRetriever`,
  `retriever.dfy`). This is the `getRelevantDocuments` that
  `createRetriever` installs. It embeds the query, asks the index for the 3
  nearest hits, keeps the hits scoring at least 0.78 in the index's order,
  and returns their documents without the scores.
- **Prompt assembly in `generateChat`** (`ChatGeneration`,
  `chat_generation.dfy`). It annotates every hit's metadata with its score.
  There is no threshold on this path. It builds the context block, which is
  each text plus `"\n"`, joined with `"\n"`. It serialises the history as
  `Human: h, AI Assistant: a, ` per turn and fills the fixed prompt. An
  absent history (`history?.map`) prints as the word `undefined`, as the
  template literal does.

Shared values (documents, scored hits, the embedding and similarity-search
oracles) are in `documents.dfy`, and `Option` is in `wrappers.dfy`.

Outside services are parameters. These are the embedding service
(`Embedder`), the vector index's similarity search (`SimilaritySearch`,
given the vector and k), the chat-completions endpoint (`Completion`), and
LangChain's chains, each a `Chain` made of its template and its `run`
function. Scores are `real`s, because they are only compared with 0.78.

Notes on behaviour, where the code decides:
- The chat-history-key error message interpolates the input key, not the
  chat-history key (`ChatHistoryKeyNotFound(inputKey)`).
- `outputKey` is always `"text"`. The subclass's field initialiser runs
  after the base constructor, so the `outputKey` option of `fromLLM` has no
  effect.
- The code does not reject an empty question. With no documents and no
  fallback chain, the combine-documents chain is still called, with the
  empty document list. The model follows the code in both cases.
- The base LangChain class supplies defaults that are not part of this
  model. They are taken as input key `"question"`, chat-history key
  `"chat_history"` and `returnSourceDocuments` false.
- A question generator that was never set, met with a non-empty history,
  fails as the JavaScript `TypeError` does (`QuestionGeneratorUndefined`).

## Model

| member | source | states |
|---|---|---|
| `ConversationalChain.ConversationalRetrievalQAChain.Call` | utils/CustomConversationalRetrievalQAChain.ts:54-108 | A missing input key or chat-history key fails before any collaborator call. The second message names the input key. With history, a missing generator fails with no calls, and a generator result without exactly one key fails after that single call. When the call proceeds, the trace is [generator call, only with non-empty history], then one retriever call, then one answer call. The retriever gets the original question without history, and otherwise the generator's sole value. The fallback chain is called iff there are no documents and one is configured. It gets the original question and the history, and its sole value becomes `{outputKey: value}`; a result with several values is an error. Otherwise the combine chain gets the standalone question, the documents and the history, and its result is returned unchanged, or with `sourceDocuments` equal to the documents. |
| `ConversationalChain.ConversationalRetrievalQAChain.constructor` | utils/CustomConversationalRetrievalQAChain.ts:43-52 | The fallback chain is kept only when a question generator is given. The output key is always "text". The other fields take the given values or the defaults. |
| `ConversationalChain.ConversationalRetrievalQAChain.FromLLM` | utils/CustomConversationalRetrievalQAChain.ts:109-158 | The built chain holds the question-generator, QA and fallback chains that `FromLLMFields` builds from the options. It always has a question generator. It has a fallback chain iff a non-empty fallback template was given, built from that template. The output key is "text" whatever the options say. The input key and the source-documents flag come from the options or the defaults, and the chat-history key is "chat_history". |
| `ConversationalChain.FromLLMFields` | utils/CustomConversationalRetrievalQAChain.ts:121-156 | The question generator and the QA chain use the option's template when it is non-empty, and the built-in template otherwise. A fallback chain exists iff its template option is non-empty, and its template is always that option, so the built-in fallback template is unreachable. The remaining options pass through unchanged. |
| `ConversationalChain.SoleValueUnique` | utils/CustomConversationalRetrievalQAChain.ts:69-71 | A result with exactly one key has a single value, so `result[keys[0]]` is well defined. |
| `ScoreThresholdRetriever.PassingFrom` | utils/makechain.ts:19-20 | The positions of hits scoring at least 0.78, strictly increasing, each passing, and none missing. |
| `ScoreThresholdRetriever.RelevantDocumentsArePassingHits` | utils/makechain.ts:19-21 | The retriever's result is exactly the documents of the passing hits, in the index's order, which makes it a subsequence of the index's answer. |
| `ScoreThresholdRetriever.CreateRetriever` | utils/makechain.ts:8-24 | For every query, the installed retriever returns exactly the documents of the hits scoring at least 0.78 among the k = 3 nearest to the embedded query, in the index's order. The filter argument plays no part. |
| `ScoreThresholdRetriever.KeptDocumentsReachThreshold` | utils/makechain.ts:20-21 | Every returned document comes from a hit with score ≥ 0.78. |
| `ScoreThresholdRetriever.NoRelevantHitDropped` | utils/makechain.ts:19-21 | Every hit with score ≥ 0.78 has its document in the result. |
| `ScoreThresholdRetriever.FilterShrinks` | utils/makechain.ts:19-20 | Filtering never lengthens the list. |
| `ScoreThresholdRetriever.RetrieverReturnsAtMostThree` | utils/makechain.ts:14-21 | The index is asked for k = 3. If it honours k, the retriever returns at most as many documents as hits, and at most 3. |
| `ScoreThresholdRetriever.FilterArgumentIgnored` | utils/makechain.ts:8-24 | The `filter` argument of `createRetriever` does not change what the retriever returns. |
| `ScoreThresholdRetriever.ThresholdIsInclusive` | utils/makechain.ts:20 | A hit scoring exactly 0.78 is kept. One scoring below 0.78 is dropped. |
| `ChatGeneration.AnnotateScore` | utils/generate-chat.ts:45-48 | The annotated document has the same text. Its metadata keys are the old keys plus "score", "score" holds the hit's score, and every other key keeps its value. |
| `ChatGeneration.AnnotateScores` | utils/generate-chat.ts:45-48 | Every hit is annotated and none is dropped. The i-th result keeps the i-th hit's text. Its metadata keys are the hit's keys plus "score", "score" holds the hit's score, and every other key keeps its value. |
| `ChatGeneration.JoinSnoc` | utils/generate-chat.ts:49 | Joining one more part appends the separator and the part. |
| `ChatGeneration.JoinConcatEmptySep` | utils/generate-chat.ts:56 | Joining with "" distributes over concatenation. |
| `ChatGeneration.JoinBounds` | utils/generate-chat.ts:49 | A join of one or more parts starts with the first part and ends with the last. |
| `ChatGeneration.Context` | utils/generate-chat.ts:49 | The context block is empty exactly when there are no hits. Otherwise it starts with the first hit's text and ends with the last hit's text and a newline. |
| `ChatGeneration.ContextOfFewDocuments` | utils/generate-chat.ts:49 | With no hits the context is empty. One hit gives its text and "\n". |
| `ChatGeneration.ContextAppend` | utils/generate-chat.ts:49 | Each further hit adds "\n", its text and "\n" at the end, so the texts appear in hit order. |
| `ChatGeneration.ContextLength` | utils/generate-chat.ts:49 | The context length is the total text length plus 2n - 1 for n ≥ 1 hits, with no other characters. |
| `ChatGeneration.FormatHistory` | utils/generate-chat.ts:51-56 | The serialised history is empty exactly for an empty history. Otherwise it starts with the first turn's text and ends with the last turn's text. |
| `ChatGeneration.HistoryText` | utils/generate-chat.ts:51-56 | An absent history gives "undefined". The text is empty exactly for a present, empty history. A non-empty history's text starts with its first turn. |
| `ChatGeneration.FormatHistoryConcat` | utils/generate-chat.ts:51-56 | An empty history serialises to "". Serialisation distributes over concatenation of histories. |
| `ChatGeneration.FormatHistorySingle` | utils/generate-chat.ts:51-56 | One turn serialises to `Human: h, AI Assistant: a, `. |
| `ChatGeneration.FormatHistoryLength` | utils/generate-chat.ts:51-56 | Each turn contributes its two utterances plus 25 characters of labels. |
| `ChatGeneration.PromptLayout` | utils/generate-chat.ts:4-28 | `Prompt` is the introduction, the context, the rules, the history, the opening `"""` line, the question and the closing text, in that order and with nothing else. The lemma gives the exact offset of each of the seven parts. |
| `ChatGeneration.PromptQuotesQuestion` | utils/generate-chat.ts:20-27 | The question comes after the history, verbatim, right after a `"""` line and right before a closing `"""`. |
| `ChatGeneration.AnnotationKeepsContext` | utils/generate-chat.ts:45-49 | The context built from the annotated hits equals the one built from the hits' own documents, so the score annotation never reaches the prompt. |
| `ChatGeneration.GenerateChat` | utils/generate-chat.ts:30-86 | No threshold applies. The sources are every hit of the k = 3 search, in order, each exactly the hit's document annotated with its score. The answer is the completion of the prompt built from the hits' own texts, the serialised history and the query. |
| `ChatGeneration.ChatReturnsAtMostThree` | utils/generate-chat.ts:36-39 | The search asks for k = 3. If the index honours k, at most 3 sources are returned. |

## Left out

- The network calls: the OpenAI embedding, the Pinecone similarity search and the `fetch` to the chat-completions endpoint. They are parameters, and their failures (thrown errors, a response without `choices`) are not modelled.
- Failures of the collaborator chains and of the retriever. Each is a total function here, so an exception thrown inside one, which the code would propagate, is not represented.
- LangChain's own behaviour: how `PromptTemplate` fills a template, what `LLMChain` and `loadQAStuffChain` do with the model, and the base class's defaults. A chain is its template plus an opaque `run` function.
- `makeChain`, which only configures LangChain's stock chain and a logging callback, and the ingestion script `scripts/ingest-data.ts`, which is database access and index upserts.
- Streaming, callbacks, async scheduling and `console.log`. None of them changes a result.
- Floating-point scores. Scores are reals that are only compared with 0.78.
- Dynamic typing of the chain input record. `Call` takes a map from keys to strings, so a non-string question or chat history (for example a message array) is not modelled. JavaScript's `in` operator is taken to see only the record's own keys.
- The wording and quality of model output (markdown, refusals). These are instructions to a remote model, not code behaviour.
