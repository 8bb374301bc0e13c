/**
 * `generateChat`: one question answered without the chain machinery. The
 * query is embedded and sent to the index with k = 3; every hit is kept
 * (no score threshold on this path) and its score is copied into its
 * metadata; the hits' texts become the context block, the conversation so
 * far is serialised, both go into a fixed prompt with the question, and the
 * completion service's answer is returned with the annotated hits.
 */
module ChatGeneration {
  import opened Wrappers
  import opened Documents

  /** One exchange of the conversation: `[humanMessage, aiMessage]`. */
  datatype Turn = Turn(human: string, ai: string)

  /** What `generateChat` resolves to. */
  datatype ChatResponse = ChatResponse(text: string, sourceDocuments: seq<Document>)

  /**
   * The chat-completions endpoint: the prompt, sent as the single user
   * message, to the content of the first choice.
   */
  type Completion = string -> string

  // ---------------------------------------------------------------------
  // Score annotation
  // ---------------------------------------------------------------------

  /** A hit as a document whose metadata also records the hit's score. */
  function AnnotateScore(hit: Scored): (d: Document)
    ensures d.pageContent == hit.doc.pageContent
    ensures d.metadata.Keys == hit.doc.metadata.Keys + {"score"}
    ensures d.metadata["score"] == Num(hit.score)
    ensures forall key :: key in hit.doc.metadata && key != "score" ==> d.metadata[key] == hit.doc.metadata[key]
  {
    Document(hit.doc.pageContent, hit.doc.metadata["score" := Num(hit.score)])
  }

  /**
   * `results.map(...)`: every hit annotated, none dropped, in the index's
   * order, each keeping its text and its metadata and carrying its score.
   */
  function AnnotateScores(results: seq<Scored>): (data: seq<Document>)
    ensures |data| == |results|
    ensures forall i :: 0 <= i < |results| ==>
      && data[i].pageContent == results[i].doc.pageContent
      && data[i].metadata.Keys == results[i].doc.metadata.Keys + {"score"}
      && data[i].metadata["score"] == Num(results[i].score)
      && (forall key :: key in results[i].doc.metadata && key != "score" ==>
            data[i].metadata[key] == results[i].doc.metadata[key])
  {
    seq(|results|, i requires 0 <= i < |results| => AnnotateScore(results[i]))
  }

  // ---------------------------------------------------------------------
  // Array.prototype.join
  // ---------------------------------------------------------------------

  /** `parts.join(sep)`. */
  function Join(parts: seq<string>, sep: string): string
  {
    if |parts| == 0 then ""
    else if |parts| == 1 then parts[0]
    else parts[0] + sep + Join(parts[1..], sep)
  }

  /** `s` ends with `t`. */
  predicate EndsWith(s: string, t: string)
  {
    |t| <= |s| && s[|s| - |t|..] == t
  }

  /** A join of at least one part starts with the first part and ends with the last. */
  lemma {:induction false} JoinBounds(parts: seq<string>, sep: string)
    requires parts != []
    ensures parts[0] <= Join(parts, sep)
    ensures EndsWith(Join(parts, sep), parts[|parts| - 1])
  {
    if |parts| > 1 {
      JoinBounds(parts[1..], sep);
      var rest := Join(parts[1..], sep);
      var last := parts[|parts| - 1];
      assert parts[1..][|parts[1..]| - 1] == last;
      var whole := parts[0] + sep + rest;
      assert whole[|whole| - |last|..] == rest[|rest| - |last|..];
    }
  }

  /** Joining one more part adds the separator and the part at the end. */
  lemma {:induction false} JoinSnoc(parts: seq<string>, p: string, sep: string)
    requires parts != []
    ensures Join(parts + [p], sep) == Join(parts, sep) + sep + p
  {
    var all := parts + [p];
    if |parts| == 1 {
      assert all[1..] == [p];
    } else {
      assert all[1..] == parts[1..] + [p];
      JoinSnoc(parts[1..], p, sep);
    }
  }

  /** With the empty separator, joining distributes over concatenation. */
  lemma {:induction false} JoinConcatEmptySep(a: seq<string>, b: seq<string>)
    ensures Join(a + b, "") == Join(a, "") + Join(b, "")
  {
    if a == [] {
      assert a + b == b;
    } else if |a| == 1 {
      if b != [] {
        assert (a + b)[1..] == b;
      } else {
        assert a + b == a;
      }
    } else {
      assert (a + b)[1..] == a[1..] + b;
      JoinConcatEmptySep(a[1..], b);
    }
  }

  // ---------------------------------------------------------------------
  // The context block
  // ---------------------------------------------------------------------

  /** Each document's text followed by a newline. */
  function ContextEntries(data: seq<Document>): seq<string>
  {
    seq(|data|, i requires 0 <= i < |data| => data[i].pageContent + "\n")
  }

  /**
   * `data.map((item) => `${item.pageContent}\n`).join('\n')`: empty exactly
   * when there are no hits; otherwise it starts with the first hit's text
   * and ends with the last hit's text and a newline.
   */
  function Context(data: seq<Document>): (c: string)
    ensures c == "" <==> data == []
    ensures data != [] ==> data[0].pageContent <= c && EndsWith(c, data[|data| - 1].pageContent + "\n")
  {
    var entries := ContextEntries(data);
    assert entries != [] ==> entries[0] <= Join(entries, "\n") && EndsWith(Join(entries, "\n"), entries[|entries| - 1]) by {
      if entries != [] {
        JoinBounds(entries, "\n");
      }
    }
    Join(entries, "\n")
  }

  /** No hits, empty context; one hit, its text and a newline. */
  lemma ContextOfFewDocuments(d: Document)
    ensures Context([]) == ""
    ensures Context([d]) == d.pageContent + "\n"
  {
    assert ContextEntries([d]) == [d.pageContent + "\n"];
  }

  /**
   * Built from the end: each further document adds a blank line, its text
   * and a newline, so the texts appear in the order of the hits.
   */
  lemma ContextAppend(data: seq<Document>, d: Document)
    requires data != []
    ensures Context(data + [d]) == Context(data) + "\n" + d.pageContent + "\n"
  {
    assert ContextEntries(data + [d]) == ContextEntries(data) + [d.pageContent + "\n"];
    JoinSnoc(ContextEntries(data), d.pageContent + "\n", "\n");
  }

  /** Total length of the documents' texts. */
  function ContentLength(data: seq<Document>): nat
  {
    if data == [] then 0 else |data[0].pageContent| + ContentLength(data[1..])
  }

  /**
   * The context holds nothing but the texts, one newline after each and one
   * more newline between neighbours.
   */
  lemma {:induction false} ContextLength(data: seq<Document>)
    requires data != []
    ensures |Context(data)| == ContentLength(data) + 2 * |data| - 1
  {
    if |data| > 1 {
      ContextLength(data[1..]);
      assert ContextEntries(data)[1..] == ContextEntries(data[1..]);
    }
  }

  // ---------------------------------------------------------------------
  // The conversation history
  // ---------------------------------------------------------------------

  /** One turn as `Human: <h>, AI Assistant: <a>, `. */
  function TurnText(t: Turn): string
  {
    "Human: " + t.human + ", AI Assistant: " + t.ai + ", "
  }

  /**
   * `history.map(...).join('')`: empty exactly for an empty history;
   * otherwise it starts with the first turn's text and ends with the last's.
   */
  function FormatHistory(history: seq<Turn>): (s: string)
    ensures s == "" <==> history == []
    ensures history != [] ==> TurnText(history[0]) <= s && EndsWith(s, TurnText(history[|history| - 1]))
  {
    var texts := seq(|history|, i requires 0 <= i < |history| => TurnText(history[i]));
    assert texts != [] ==> texts[0] <= Join(texts, "") && EndsWith(Join(texts, ""), texts[|texts| - 1]) by {
      if texts != [] {
        JoinBounds(texts, "");
      }
    }
    Join(texts, "")
  }

  /**
   * `history?.map(...).join('')` as interpolated into the prompt: an
   * absent history short-circuits to `undefined`, which the template
   * literal prints as the word "undefined".
   */
  function HistoryText(history: Option<seq<Turn>>): (s: string)
    ensures s == "" <==> history == Some([])
    ensures history.None? ==> s == "undefined"
    ensures history.Some? && history.value != [] ==> TurnText(history.value[0]) <= s
  {
    match history
    case None => "undefined"
    case Some(h) => FormatHistory(h)
  }

  /** The serialisation of a history is the serialisations of its turns, in order. */
  lemma FormatHistoryConcat(a: seq<Turn>, b: seq<Turn>)
    ensures FormatHistory([]) == ""
    ensures FormatHistory(a + b) == FormatHistory(a) + FormatHistory(b)
  {
    var texts := (h: seq<Turn>) => seq(|h|, i requires 0 <= i < |h| => TurnText(h[i]));
    assert texts(a + b) == texts(a) + texts(b);
    JoinConcatEmptySep(texts(a), texts(b));
  }

  /** A one-turn history is that turn's text. */
  lemma FormatHistorySingle(t: Turn)
    ensures FormatHistory([t]) == "Human: " + t.human + ", AI Assistant: " + t.ai + ", "
  {
    assert seq(1, i requires 0 <= i < 1 => TurnText([t][i])) == [TurnText(t)];
  }

  /** Total length of both sides of every turn. */
  function UtteranceLength(history: seq<Turn>): nat
  {
    if history == [] then 0 else |history[0].human| + |history[0].ai| + UtteranceLength(history[1..])
  }

  /** Each turn adds its two utterances and 25 characters of labels. */
  lemma {:induction false} FormatHistoryLength(history: seq<Turn>)
    ensures |FormatHistory(history)| == UtteranceLength(history) + 25 * |history|
  {
    if history != [] {
      FormatHistoryLength(history[1..]);
      assert history == [history[0]] + history[1..];
      FormatHistoryConcat([history[0]], history[1..]);
      FormatHistorySingle(history[0]);
    }
  }

  // ---------------------------------------------------------------------
  // The prompt
  // ---------------------------------------------------------------------

  /** The fixed text before the context. */
  const PromptIntro: string :=
    "You are a helpful AI assistant. Use the following pieces of context & chat history to answer the question at the end. If you don't know the answer, just say you don't know. DO NOT try to make up an answer. DO NOT try to make up things like Dates, Names, Places, etc.\n"
    + "If the question is not related to the context, politely respond that you don't know and ask if there is anything else you can help with related to Collect chat.\n"
    + "  \n"
    + "Context:\n"

  /** The fixed text between the context and the history. */
  const PromptRules: string :=
    "\n"
    + "  \n"
    + "If the answer is not included, follow the rules below:\n"
    + "1. If the question is a greeting, respond back politely.\n"
    + "2. If the qestion is unrelated to context, politely respond that you don't know and ask if there is anything else you can help with related to Collect chat.\n"
    + "3. If the question is a statement or a fact, ALWAYS respond that you can only answer questions that are related to Collect chat.\n"
    + "\n"
    + "Make sure the answer is in markdown format. Add line breaks when needed. Use bullet points if needed. Use bold, italics, and links if needed. Hyperlink URLs if possible. If the answer is a code snippet, use the code block markdown.\n"
    + "\n"
    + "Provided below is a history of the conversation. You may also make use of the conversation history for additional context for the question at the end.\n"
    + "\n"
    + "Conversation History:\n"

  /** The fixed text between the history and the question, opening the quotes. */
  const QuestionOpen: string := "\n\nQuestion: \"\"\"\n"

  /** The fixed text after the question, closing the quotes. */
  const QuestionClose: string := "\n\"\"\"\n\nHelpful answer in markdown:"

  /** `PROMPT(context, history, question)`. */
  function Prompt(context: string, history: string, question: string): string
  {
    PromptIntro + context + PromptRules + history + QuestionOpen + question + QuestionClose
  }

  /**
   * The prompt splits into the introduction, the context, the rules, the
   * history, the opening of the quotes, the question and the closing line,
   * in that order and with nothing else.
   */
  lemma PromptLayout(context: string, history: string, question: string)
    ensures Laid(Prompt(context, history, question), PromptIntro, context, PromptRules, history, QuestionOpen, question, QuestionClose)
  {
    SevenParts(PromptIntro, context, PromptRules, history, QuestionOpen, question, QuestionClose);
  }

  /**
   * `p` holds `question` verbatim from offset `q`, right after a line
   * opening triple quotes and right before a line closing them.
   */
  predicate QuotedAt(p: string, q: int, question: string)
  {
    && 4 <= q
    && q + |question| + 4 <= |p|
    && p[q - 4..q] == "\"\"\"\n"
    && p[q..q + |question|] == question
    && p[q + |question|..q + |question| + 4] == "\n\"\"\""
  }

  /**
   * The question comes last, after the history, verbatim between a line
   * opening triple quotes and a line closing them.
   */
  lemma PromptQuotesQuestion(context: string, history: string, question: string)
    ensures QuotedAt(Prompt(context, history, question), |PromptIntro + context + PromptRules + history| + |QuestionOpen|, question)
  {
    QuotedAfter(PromptIntro + context + PromptRules + history, question);
  }

  /** The question quoted after any preceding text. */
  lemma QuotedAfter(pre: string, question: string)
    ensures QuotedAt(pre + QuestionOpen + question + QuestionClose, |pre| + |QuestionOpen|, question)
  {
    var p := pre + QuestionOpen + question + QuestionClose;
    var q := |pre| + |QuestionOpen|;
    assert |QuestionOpen| == 16 && QuestionOpen[12..] == "\"\"\"\n";
    assert |QuestionClose| == 33 && QuestionClose[..4] == "\n\"\"\"";
    assert p[q - 16..q] == QuestionOpen;
    assert p[q - 4..q] == p[q - 16..q][12..];
    assert p[q..q + |question|] == question;
    assert p[q + |question|..] == QuestionClose;
    assert p[q + |question|..q + |question| + 4] == p[q + |question|..][..4];
  }

  /**
   * `p` is `a` to `g` in a row and nothing else: its length is theirs
   * together and each part sits at the offset the ones before it give.
   */
  predicate Laid(p: string, a: string, b: string, c: string, d: string, e: string, f: string, g: string)
  {
    var i := |a| + |b| + |c|;
    var j := i + |d| + |e|;
    && |p| == j + |f| + |g|
    && p[..|a|] == a
    && p[|a|..|a| + |b|] == b
    && p[|a| + |b|..i] == c
    && p[i..i + |d|] == d
    && p[i + |d|..j] == e
    && p[j..j + |f|] == f
    && p[j + |f|..] == g
  }

  /** Seven texts in a row are laid out part after part. */
  lemma SevenParts(a: string, b: string, c: string, d: string, e: string, f: string, g: string)
    ensures Laid(a + b + c + d + e + f + g, a, b, c, d, e, f, g)
  {
    var p2 := a + b;
    var p3 := p2 + c;
    var p4 := p3 + d;
    var p5 := p4 + e;
    var p6 := p5 + f;
    var p := p6 + g;
    Tail(p6, g);
    Tail(p5, f);
    SliceOfPrefix(p6, g, |p5|, |p6|);
    Tail(p4, e);
    SliceOfPrefix(p5, f, |p4|, |p5|);
    SliceOfPrefix(p6, g, |p4|, |p5|);
    Tail(p3, d);
    SliceOfPrefix(p4, e, |p3|, |p4|);
    SliceOfPrefix(p5, f, |p3|, |p4|);
    SliceOfPrefix(p6, g, |p3|, |p4|);
    Tail(p2, c);
    SliceOfPrefix(p3, d, |p2|, |p3|);
    SliceOfPrefix(p4, e, |p2|, |p3|);
    SliceOfPrefix(p5, f, |p2|, |p3|);
    SliceOfPrefix(p6, g, |p2|, |p3|);
    Tail(a, b);
    SliceOfPrefix(p2, c, |a|, |p2|);
    SliceOfPrefix(p3, d, |a|, |p2|);
    SliceOfPrefix(p4, e, |a|, |p2|);
    SliceOfPrefix(p5, f, |a|, |p2|);
    SliceOfPrefix(p6, g, |a|, |p2|);
    SliceOfPrefix(p2, c, 0, |a|);
    SliceOfPrefix(p3, d, 0, |a|);
    SliceOfPrefix(p4, e, 0, |a|);
    SliceOfPrefix(p5, f, 0, |a|);
    SliceOfPrefix(p6, g, 0, |a|);
    SliceOfPrefix(a, b, 0, |a|);
  }

  /** What follows a prefix is the rest. */
  lemma Tail(x: string, y: string)
    ensures (x + y)[|x|..] == y
  {
  }

  /** A slice inside the first part is that part's slice. */
  lemma SliceOfPrefix(x: string, y: string, i: nat, k: nat)
    requires i <= k <= |x|
    ensures (x + y)[i..k] == x[i..k]
  {
  }

  // ---------------------------------------------------------------------
  // generateChat
  // ---------------------------------------------------------------------

  /**
   * Annotating the hits with their scores leaves the context block as the
   * hits' own documents would give it.
   */
  lemma AnnotationKeepsContext(hits: seq<Scored>)
    ensures Context(AnnotateScores(hits)) == Context(StripScores(hits))
  {
    assert ContextEntries(AnnotateScores(hits)) == ContextEntries(StripScores(hits));
  }

  /**
   * `generateChat(query, history, vectorStore)`. No threshold on this path:
   * the sources are every hit of the k = 3 search, in the index's order,
   * each annotated with its score whatever that score is; the answer is
   * the completion of the prompt built from those hits' texts, the
   * serialised history and the query.
   */
  function GenerateChat(query: string, history: Option<seq<Turn>>, search: SimilaritySearch, embed: Embedder, complete: Completion)
    : (r: ChatResponse)
    ensures var hits := search(embed(query), SearchK);
      && |r.sourceDocuments| == |hits|
      && (forall i :: 0 <= i < |hits| ==> r.sourceDocuments[i] == AnnotateScore(hits[i]))
      && r.text == complete(Prompt(Context(StripScores(hits)), HistoryText(history), query))
  {
    var results := search(embed(query), SearchK);
    var data := AnnotateScores(results);
    AnnotationKeepsContext(results);
    var context := Context(data);
    var formattedHistory := HistoryText(history);
    ChatResponse(complete(Prompt(context, formattedHistory, query)), data)
  }

  /** With an index that honours k, at most 3 sources come back. */
  lemma ChatReturnsAtMostThree(query: string, history: Option<seq<Turn>>, search: SimilaritySearch, embed: Embedder, complete: Completion)
    requires HonoursK(search)
    ensures |GenerateChat(query, history, search, embed, complete).sourceDocuments| <= 3
  {
    assert |search(embed(query), SearchK)| <= SearchK;
  }
}
