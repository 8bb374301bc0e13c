/**
 * CustomConversationalRetrievalQAChain: LangChain's conversational
 * retrieval QA chain with a fallback for questions that find no context.
 *
 * One call condenses the follow-up question with the chat history (only
 * when there is history), retrieves documents for the condensed question,
 * and then either answers from those documents with the combine-documents
 * chain or, when nothing was found and a fallback chain is configured,
 * lets the fallback chain answer the original question.
 *
 * The collaborators (language-model chains and the retriever) are
 * functions; every call to one of them is recorded in a ghost trace of
 * invocations, so which collaborators ran, in which order and with which
 * inputs is part of the contract.
 */
module ConversationalChain {
  import opened Wrappers
  import opened Documents

  /** A value in a chain's input or output record. */
  datatype ChainValue = Text(text: string) | Docs(docs: seq<Document>)

  /** The record a chain is called with. */
  type ChainInputs = map<string, ChainValue>

  /** The record a language-model chain answers with: named text values. */
  type ChainOutputs = map<string, string>

  /** The behaviour of a chain's `call`. */
  type ChainRun = ChainInputs -> ChainOutputs

  /** The retriever's `getRelevantDocuments`. */
  type Retriever = string -> seq<Document>

  /** A chain: the prompt template it was built with and what its `call` does. */
  datatype Chain = Chain(template: string, run: ChainRun)

  /**
   * A language model, seen through the two wrappers the chain builds
   * around it: `new LLMChain({prompt, llm})` and
   * `loadQAStuffChain(llm, {prompt})`, each as a function of the template.
   */
  datatype Llm = Llm(llmChain: string -> ChainRun, stuffChain: string -> ChainRun)

  /** A thrown `Error`, with its message. */
  datatype ChainError = ChainError(message: string)

  datatype Result<T> = Success(value: T) | Failure(error: ChainError)

  /** One call to a collaborator, with what it was given. */
  datatype Invocation =
    | QuestionGeneration(inputs: ChainInputs)
    | RetrieverQuery(query: string)
    | CombineDocuments(inputs: ChainInputs)
    | EmptyContextResponse(inputs: ChainInputs)

  function QuestionKeyNotFound(inputKey: string): ChainError
  {
    ChainError("Question key " + inputKey + " not found.")
  }

  /** Raised for a missing chat-history key; the message names the input key. */
  function ChatHistoryKeyNotFound(inputKey: string): ChainError
  {
    ChainError("chat history key " + inputKey + " not found.")
  }

  const MultipleValues: ChainError :=
    ChainError("Return from llm chain has multiple values, only single values supported.")

  /** The TypeError of calling a question generator that was never set. */
  const QuestionGeneratorUndefined: ChainError :=
    ChainError("Cannot read properties of undefined (reading 'call')")

  const DefaultInputKey: string := "question"
  const ChatHistoryKey: string := "chat_history"
  const OutputKey: string := "text"
  const SourceDocumentsKey: string := "sourceDocuments"

  const QuestionGeneratorTemplate: string :=
    "Given the following conversation and a follow up question, rephrase the follow up question to be a standalone question.\n"
    + "Chat History:\n{chat_history}\nFollow Up Input: {question}\nStandalone question:"

  const QaTemplate: string :=
    "Use the following pieces of context to answer the question at the end. If you don't know the answer, just say that you don't know, don't try to make up an answer.\n"
    + "{context}\nQuestion: {question}\nHelpful Answer:"

  const EmptyContextResponseGeneratorTemplate: string :=
    "You are a helpful AI assistant. No context is available. If the below question is a greeting, respond back politely. If the question is unrelated to Collect chat, politely respond that you can only answer questions that are related to Collect chat. Dont asnwer questions that asks \"What is x?\" if x is not related to Collect chat. Never break character.\n"
    + "\nQuestion: {question}\nHelpful Answer:"

  /** `{question, chat_history}`: what the condenser and the fallback chain receive. */
  function QuestionInputs(question: string, chatHistory: string): ChainInputs
  {
    map["question" := Text(question), "chat_history" := Text(chatHistory)]
  }

  /** `{question, input_documents, chat_history}`: what the combine-documents chain receives. */
  function CombineInputs(question: string, docs: seq<Document>, chatHistory: string): ChainInputs
  {
    map["question" := Text(question), "input_documents" := Docs(docs), "chat_history" := Text(chatHistory)]
  }

  /** A chain's text outputs as chain values. */
  function AsChainValues(outputs: ChainOutputs): map<string, ChainValue>
  {
    map key | key in outputs :: Text(outputs[key])
  }

  /** `v` is `result[keys[0]]` for a result with exactly one key. */
  predicate IsSoleValue(outputs: ChainOutputs, v: string)
  {
    |outputs| == 1 && v in outputs.Values
  }

  /** A single-key result has one value, so the value taken from it is determined. */
  lemma SoleValueUnique(outputs: ChainOutputs, v: string, w: string)
    requires IsSoleValue(outputs, v) && IsSoleValue(outputs, w)
    ensures v == w
  {
    var kv :| kv in outputs && outputs[kv] == v;
    var kw :| kw in outputs && outputs[kw] == w;
    assert kw in outputs.Keys - {kv} ==> |outputs.Keys - {kv}| > 0;
  }

  /** JavaScript truthiness of an optional string. */
  predicate Truthy(s: Option<string>)
  {
    s.Some? && s.value != ""
  }

  /** `s || fallback`. */
  function OrDefault(s: Option<string>, fallback: string): string
  {
    if Truthy(s) then s.value else fallback
  }

  /** The constructor's argument. */
  datatype ChainFields = ChainFields(
    retriever: Retriever,
    combineDocumentsChain: Chain,
    questionGeneratorChain: Option<Chain>,
    emptyContextResponseGeneratorChain: Option<Chain>,
    returnSourceDocuments: Option<bool>,
    inputKey: Option<string>,
    outputKey: Option<string>)

  /** The `options` of `fromLLM`. */
  datatype FromLLMOptions = FromLLMOptions(
    inputKey: Option<string>,
    outputKey: Option<string>,
    returnSourceDocuments: Option<bool>,
    questionGeneratorTemplate: Option<string>,
    emptyContextResponseGeneratorTemplate: Option<string>,
    qaTemplate: Option<string>)

  /**
   * The fields `fromLLM` hands to the constructor. A question generator is
   * always built; a fallback chain only when a non-empty fallback template
   * was given, and then always from that template (the built-in fallback
   * template is never used).
   */
  function FromLLMFields(llm: Llm, retriever: Retriever, options: FromLLMOptions): (fields: ChainFields)
    ensures fields.retriever == retriever
    ensures fields.questionGeneratorChain.Some?
    ensures var t := fields.questionGeneratorChain.value.template;
      t == (if Truthy(options.questionGeneratorTemplate) then options.questionGeneratorTemplate.value else QuestionGeneratorTemplate)
      && fields.questionGeneratorChain.value.run == llm.llmChain(t)
    ensures var t := fields.combineDocumentsChain.template;
      t == (if Truthy(options.qaTemplate) then options.qaTemplate.value else QaTemplate)
      && fields.combineDocumentsChain.run == llm.stuffChain(t)
    ensures fields.emptyContextResponseGeneratorChain.Some? <==> Truthy(options.emptyContextResponseGeneratorTemplate)
    ensures fields.emptyContextResponseGeneratorChain.Some? ==>
      fields.emptyContextResponseGeneratorChain.value.template == options.emptyContextResponseGeneratorTemplate.value
    ensures fields.inputKey == options.inputKey && fields.outputKey == options.outputKey
    ensures fields.returnSourceDocuments == options.returnSourceDocuments
  {
    var questionGeneratorTemplate := OrDefault(options.questionGeneratorTemplate, QuestionGeneratorTemplate);
    var qaTemplate := OrDefault(options.qaTemplate, QaTemplate);
    var emptyContextResponseGeneratorChain :=
      if Truthy(options.emptyContextResponseGeneratorTemplate) then
        var t := OrDefault(options.emptyContextResponseGeneratorTemplate, EmptyContextResponseGeneratorTemplate);
        Some(Chain(t, llm.llmChain(t)))
      else None;
    ChainFields(
      retriever,
      Chain(qaTemplate, llm.stuffChain(qaTemplate)),
      Some(Chain(questionGeneratorTemplate, llm.llmChain(questionGeneratorTemplate))),
      emptyContextResponseGeneratorChain,
      options.returnSourceDocuments,
      options.inputKey,
      options.outputKey)
  }

  class ConversationalRetrievalQAChain {
    const inputKey: string
    const chatHistoryKey: string
    const outputKey: string
    const returnSourceDocuments: bool
    const retriever: Retriever
    const combineDocumentsChain: Chain
    const questionGeneratorChain: Option<Chain>
    var emptyContextResponseGeneratorChain: Option<Chain>

    /**
     * The keys and flags take the given values or the base chain's
     * defaults; the output key is always "text", since the field
     * initialiser runs after the base constructor. The fallback chain is
     * kept only when a question generator was given.
     */
    constructor (fields: ChainFields)
      ensures inputKey == fields.inputKey.GetOr(DefaultInputKey)
      ensures chatHistoryKey == ChatHistoryKey
      ensures outputKey == OutputKey
      ensures returnSourceDocuments == fields.returnSourceDocuments.GetOr(false)
      ensures retriever == fields.retriever
      ensures combineDocumentsChain == fields.combineDocumentsChain
      ensures questionGeneratorChain == fields.questionGeneratorChain
      ensures emptyContextResponseGeneratorChain ==
        if fields.questionGeneratorChain.Some? then fields.emptyContextResponseGeneratorChain else None
    {
      inputKey := fields.inputKey.GetOr(DefaultInputKey);
      chatHistoryKey := ChatHistoryKey;
      returnSourceDocuments := fields.returnSourceDocuments.GetOr(false);
      retriever := fields.retriever;
      combineDocumentsChain := fields.combineDocumentsChain;
      questionGeneratorChain := fields.questionGeneratorChain;
      outputKey := OutputKey;
      emptyContextResponseGeneratorChain := None;
      new;
      if fields.questionGeneratorChain.Some? {
        emptyContextResponseGeneratorChain := fields.emptyContextResponseGeneratorChain;
      }
    }

    /**
     * `fromLLM(llm, retriever, options)`: the chain has a question
     * generator, and a fallback chain exactly when a non-empty fallback
     * template was given, built from that template.
     */
    static method FromLLM(llm: Llm, retriever: Retriever, options: FromLLMOptions)
      returns (chain: ConversationalRetrievalQAChain)
      ensures var fields := FromLLMFields(llm, retriever, options);
        && chain.combineDocumentsChain == fields.combineDocumentsChain
        && chain.questionGeneratorChain == fields.questionGeneratorChain
        && chain.emptyContextResponseGeneratorChain == fields.emptyContextResponseGeneratorChain
      ensures chain.retriever == retriever
      ensures chain.questionGeneratorChain.Some?
      ensures chain.emptyContextResponseGeneratorChain.Some? <==> Truthy(options.emptyContextResponseGeneratorTemplate)
      ensures chain.emptyContextResponseGeneratorChain.Some? ==>
        chain.emptyContextResponseGeneratorChain.value.template == options.emptyContextResponseGeneratorTemplate.value
      ensures chain.inputKey == options.inputKey.GetOr(DefaultInputKey)
      ensures chain.chatHistoryKey == ChatHistoryKey
      ensures chain.outputKey == OutputKey
      ensures chain.returnSourceDocuments == options.returnSourceDocuments.GetOr(false)
    {
      chain := new ConversationalRetrievalQAChain(FromLLMFields(llm, retriever, options));
    }

    /** The call gets past condensation: both keys present, and the condenser (if it ran) gave one value. */
    ghost predicate Proceeds(values: map<string, string>)
    {
      && inputKey in values
      && chatHistoryKey in values
      && (values[chatHistoryKey] != "" ==>
            && questionGeneratorChain.Some?
            && |questionGeneratorChain.value.run(QuestionInputs(values[inputKey], values[chatHistoryKey]))| == 1)
    }

    /**
     * `standalone` is the question the retriever is asked: the question
     * itself when there is no history, otherwise the single value the
     * question generator returned.
     */
    ghost predicate Standalone(question: string, chatHistory: string, standalone: string)
    {
      if chatHistory == "" then standalone == question
      else
        (questionGeneratorChain.Some?
         && IsSoleValue(questionGeneratorChain.value.run(QuestionInputs(question, chatHistory)), standalone))
    }

    /**
     * The last step, once `docs` are retrieved for `standalone`: with no
     * documents and a fallback chain, the fallback chain gets the ORIGINAL
     * question and the history, and its single value becomes the output
     * `{outputKey: value}` (several values are an error); otherwise the
     * combine-documents chain gets the standalone question, the documents
     * and the history, and its result is the output, with the documents
     * added as `sourceDocuments` when asked for.
     */
    ghost predicate Answers(question: string, chatHistory: string, standalone: string,
                            r: Result<map<string, ChainValue>>, last: Invocation)
      reads this
    {
      var docs := retriever(standalone);
      if |docs| == 0 && emptyContextResponseGeneratorChain.Some? then
        var inputs := QuestionInputs(question, chatHistory);
        var outputs := emptyContextResponseGeneratorChain.value.run(inputs);
        && last == EmptyContextResponse(inputs)
        && (|outputs| == 1 ==>
              && r.Success?
              && r.value.Keys == {outputKey}
              && r.value[outputKey].Text?
              && IsSoleValue(outputs, r.value[outputKey].text))
        && (|outputs| != 1 ==> r == Failure(MultipleValues))
      else
        var inputs := CombineInputs(standalone, docs, chatHistory);
        var outputs := combineDocumentsChain.run(inputs);
        && last == CombineDocuments(inputs)
        && r.Success?
        && (returnSourceDocuments ==>
              && r.value.Keys == outputs.Keys + {SourceDocumentsKey}
              && r.value[SourceDocumentsKey] == Docs(docs)
              && forall key :: key in outputs && key != SourceDocumentsKey ==> r.value[key] == Text(outputs[key]))
        && (!returnSourceDocuments ==> r.value == AsChainValues(outputs))
    }

    /**
     * `_call(values)`: the answer, or the error thrown, and the
     * collaborator calls made, in order.
     */
    method Call(values: map<string, string>) returns (r: Result<map<string, ChainValue>>, ghost calls: seq<Invocation>)
      ensures inputKey !in values ==> r == Failure(QuestionKeyNotFound(inputKey))
      ensures inputKey in values && chatHistoryKey !in values ==> r == Failure(ChatHistoryKeyNotFound(inputKey))
      ensures inputKey !in values || chatHistoryKey !in values ==> calls == []
      ensures inputKey in values && chatHistoryKey in values && values[chatHistoryKey] != "" && questionGeneratorChain.None? ==>
        r == Failure(QuestionGeneratorUndefined) && calls == []
      ensures (inputKey in values && chatHistoryKey in values && values[chatHistoryKey] != "" && questionGeneratorChain.Some?
               && |questionGeneratorChain.value.run(QuestionInputs(values[inputKey], values[chatHistoryKey]))| != 1) ==>
        r == Failure(MultipleValues)
      ensures inputKey in values && chatHistoryKey in values && values[chatHistoryKey] != "" && questionGeneratorChain.Some? ==>
        var inputs := QuestionInputs(values[inputKey], values[chatHistoryKey]);
        && calls != [] && calls[0] == QuestionGeneration(inputs)
        && (|questionGeneratorChain.value.run(inputs)| != 1 ==> calls == [QuestionGeneration(inputs)])
      ensures Proceeds(values) ==>
        var question, chatHistory := values[inputKey], values[chatHistoryKey];
        var n := if chatHistory == "" then 0 else 1;
        && |calls| == n + 2
        && calls[n].RetrieverQuery?
        && Standalone(question, chatHistory, calls[n].query)
        && Answers(question, chatHistory, calls[n].query, r, calls[n + 1])
    {
      calls := [];
      if inputKey !in values {
        r := Failure(QuestionKeyNotFound(inputKey));
        return;
      }
      if chatHistoryKey !in values {
        r := Failure(ChatHistoryKeyNotFound(inputKey));
        return;
      }
      var question := values[inputKey];
      var chatHistory := values[chatHistoryKey];
      var newQuestion := question;
      if |chatHistory| > 0 {
        if questionGeneratorChain.None? {
          r := Failure(QuestionGeneratorUndefined);
          return;
        }
        var inputs := QuestionInputs(question, chatHistory);
        var result := questionGeneratorChain.value.run(inputs);
        calls := calls + [QuestionGeneration(inputs)];
        if |result| == 1 {
          assert result.Keys != {};
          var key :| key in result;
          newQuestion := result[key];
        } else {
          r := Failure(MultipleValues);
          return;
        }
      }
      var docs := retriever(newQuestion);
      calls := calls + [RetrieverQuery(newQuestion)];
      if |docs| == 0 && emptyContextResponseGeneratorChain.Some? {
        var inputs := QuestionInputs(question, chatHistory);
        var result := emptyContextResponseGeneratorChain.value.run(inputs);
        calls := calls + [EmptyContextResponse(inputs)];
        if |result| == 1 {
          assert result.Keys != {};
          var key :| key in result;
          r := Success(map[outputKey := Text(result[key])]);
        } else {
          r := Failure(MultipleValues);
        }
        return;
      }
      var inputs := CombineInputs(newQuestion, docs, chatHistory);
      var result := combineDocumentsChain.run(inputs);
      calls := calls + [CombineDocuments(inputs)];
      if returnSourceDocuments {
        r := Success(AsChainValues(result)[SourceDocumentsKey := Docs(docs)]);
      } else {
        r := Success(AsChainValues(result));
      }
    }
  }
}
