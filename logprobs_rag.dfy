/** Retrieval-augmented answering with a confidence gate: after answering from the loaded
    index, the model is asked whether the retrieved context suffices, the log-probabilities
    of its one-word reply are scored, and a low score switches to a fallback strategy.

    The index, the retrieval chain and the model are outside services: what they return is
    given as function parameters, and so is the conversion of a log-probability into a
    rounded percentage. */
module LogProbsRag {
  import opened Wrappers
  import opened Text

  datatype Options = Options(embeddingModel: Option<string>, model: Option<string>, temperature: Option<real>)

  /** A setting read with `options.x || fallback`: absent, empty or zero means the default. */
  function StringOr(s: Option<string>, fallback: string): string {
    if s.Some? && s.value != "" then s.value else fallback
  }

  function TemperatureOr(t: Option<real>): real {
    if t.Some? && t.value != 0.0 then t.value else 0.7
  }

  datatype Document = Document(pageContent: string)

  /** What a plain RAG query returns. */
  datatype RagAnswer = RagAnswer(answer: string, sourceDocuments: seq<Document>)

  /** One token of the model's reply with its log-probability, as the model reports it. */
  datatype TokenLogProb = TokenLogProb(token: string, logprob: real)

  /** The same token with its log-probability turned into a percentage. */
  datatype Scored = Scored(token: string, logprob: real, linearProbability: real)

  datatype Confidence = Confidence(hasSufficientContext: bool, confidenceResults: seq<Scored>)

  class Rag {
    const apiKey: string
    const embeddingModel: string
    const model: string
    const temperature: real
    /** The index the retriever reads, once one is loaded. */
    var index: Option<string>

    constructor (key: string, options: Options)
      requires key != ""
      ensures apiKey == key && index == None
      ensures embeddingModel == StringOr(options.embeddingModel, "text-embedding-3-small")
      ensures model == StringOr(options.model, "gpt-3.5-turbo")
      ensures temperature == TemperatureOr(options.temperature)
    {
      apiKey := key;
      embeddingModel := StringOr(options.embeddingModel, "text-embedding-3-small");
      model := StringOr(options.model, "gpt-3.5-turbo");
      temperature := TemperatureOr(options.temperature);
      index := None;
    }

    method LoadIndex(path: string)
      modifies this
      ensures index == Some(path)
    {
      index := Some(path);
    }

    /** Refuses to run before an index is loaded; otherwise the chain's answer and the
        retrieved documents. The web-fallback flag is accepted and ignored. */
    function PerformRAG(query: string, useWebFallback: bool, rag: string -> RagAnswer): (r: Result<RagAnswer>)
      reads this
      ensures r.Err? <==> index.None?
      ensures r.Err? ==> r.message == "Retriever not initialized. Load index first."
      ensures r.Ok? ==> r.value == rag(query)
    {
      if index.None? then Err("Retriever not initialized. Load index first.") else Ok(rag(query))
    }
  }

  /** Building the helper needs an API key: none, or an empty one, is refused. */
  method NewRag(apiKey: Option<string>, options: Options) returns (r: Result<Rag>)
    ensures apiKey.None? || apiKey.value == "" <==> r.Err?
    ensures r.Err? ==> r.message == "OpenAI API Key is required"
    ensures r.Ok? ==> fresh(r.value) && r.value.apiKey == apiKey.value && r.value.index == None
                      && r.value.temperature == TemperatureOr(options.temperature)
  {
    if apiKey.None? || apiKey.value == "" {
      return Err("OpenAI API Key is required");
    }
    var rag := new Rag(apiKey.value, options);
    r := Ok(rag);
  }

  /** A token that reads `true` or `false` once trimmed and lower-cased. */
  predicate IsVerdict(token: string) {
    Lower(Trim(token)) == "true" || Lower(Trim(token)) == "false"
  }

  function Score(lps: seq<TokenLogProb>, toLinear: real -> real): (r: seq<Scored>)
    ensures |r| == |lps|
    ensures forall i :: 0 <= i < |lps| ==>
      r[i] == Scored(lps[i].token, lps[i].logprob, toLinear(lps[i].logprob))
  {
    if lps == [] then [] else [Scored(lps[0].token, lps[0].logprob, toLinear(lps[0].logprob))] + Score(lps[1..], toLinear)
  }

  function HasVerdict(lps: seq<TokenLogProb>): (b: bool)
    ensures b <==> exists i :: 0 <= i < |lps| && IsVerdict(lps[i].token)
  {
    if lps == [] then false
    else
      assert forall i :: 1 <= i < |lps| ==> lps[i] == lps[1..][i - 1];
      IsVerdict(lps[0].token) || HasVerdict(lps[1..])
  }

  const AskOpening := "You retrieved this article: "
  const AskQuestion := ". The question is: "
  const AskClosing := ".\nBefore even answering the question, consider whether you have sufficient information in the article to answer the question fully.\nYour output should JUST be the boolean true or false, of if you have sufficient information in the article to answer the question.\nRespond with just one word, the word 'True', or the word 'False', nothing else."

  function ConfidencePrompt(context: string, question: string): string {
    AskOpening + context + AskQuestion + question + AskClosing
  }

  /** Asks the model whether the context suffices. `ask` gives the reply's log-probabilities,
      or `None` when the call or reading its metadata fails, which yields `None` here. The
      context counts as sufficient when some token is a verdict either way; every token is
      scored, in order. */
  function EvaluateContextConfidence(context: string, question: string,
                                     ask: string -> Option<seq<TokenLogProb>>, toLinear: real -> real): (r: Option<Confidence>)
    ensures ask(ConfidencePrompt(context, question)).None? <==> r.None?
    ensures r.Some? ==>
      var lps := ask(ConfidencePrompt(context, question)).value;
      && (r.value.hasSufficientContext <==> exists i :: 0 <= i < |lps| && IsVerdict(lps[i].token))
      && |r.value.confidenceResults| == |lps|
      && forall i :: 0 <= i < |lps| ==> r.value.confidenceResults[i].token == lps[i].token
    ensures r.Some? ==> r.value.confidenceResults == Score(ask(ConfidencePrompt(context, question)).value, toLinear)
  {
    match ask(ConfidencePrompt(context, question))
    case None => None
    case Some(lps) => Some(Confidence(HasVerdict(lps), Score(lps, toLinear)))
  }

  /** The metrics attached to an enhanced answer: absent, or the evaluation (possibly
      `null`). */
  datatype Metrics = NoMetrics | Metrics(confidence: Option<Confidence>)

  datatype EnhancedAnswer = EnhancedAnswer(
    answer: string, sourceDocuments: seq<Document>, confidenceMetrics: Metrics,
    suggestion: Option<string>, warning: Option<string>)

  const AskUserAnswer := "I do not have sufficient context to confidently answer this question. Would you like to rephrase or provide more context?"
  const AskUserSuggestion := "Would you like to rephrase or provide more context?"

  /** The retrieved documents' contents, separated by blank lines. */
  function ContextOf(docs: seq<Document>): string {
    Join(seq(|docs|, i requires 0 <= i < |docs| => docs[i].pageContent), "\n\n")
  }

  /** The evaluation trusts the answer: there is one, it has a first token, that token is
      exactly `True`, and its percentage reaches the threshold. */
  predicate HighConfidence(c: Option<Confidence>, threshold: real) {
    c.Some? && |c.value.confidenceResults| > 0 && c.value.confidenceResults[0].token == "True"
    && c.value.confidenceResults[0].linearProbability >= threshold
  }

  /** Answers, then gates the answer on confidence. A trusted answer is returned with its
      metrics. Otherwise the strategy decides: `web` and `retry` run the query again and
      return that plain answer, `rerun` being the chain's answer on that second run (the
      chain samples, so it need not repeat the first); `ask_user` returns a fixed question to the user with no
      sources; anything else keeps the answer, adds a warning and drops the sources. */
  function PerformEnhancedRAG(r: Rag, query: string, threshold: Option<real>, strategy: Option<string>,
                              rag: string -> RagAnswer, rerun: string -> RagAnswer,
                              ask: string -> Option<seq<TokenLogProb>>,
                              toLinear: real -> real): (res: Result<EnhancedAnswer>)
    reads r
    ensures r.index.None? ==> res == Err("Retriever not initialized. Load index first.")
    ensures r.index.Some? ==>
      var first := rag(query);
      var c := EvaluateContextConfidence(ContextOf(first.sourceDocuments), query, ask, toLinear);
      var s := strategy.GetOr("default");
      && res.Ok?
      && (HighConfidence(c, threshold.GetOr(90.0)) ==>
            res.value == EnhancedAnswer(first.answer, first.sourceDocuments, Metrics(c), None, None))
      && (!HighConfidence(c, threshold.GetOr(90.0)) && (s == "web" || s == "retry") ==>
            res.value == EnhancedAnswer(rerun(query).answer, rerun(query).sourceDocuments, NoMetrics, None, None))
      && (!HighConfidence(c, threshold.GetOr(90.0)) && s == "ask_user" ==>
            res.value == EnhancedAnswer(AskUserAnswer, [], Metrics(c), Some(AskUserSuggestion), None))
      && (!HighConfidence(c, threshold.GetOr(90.0)) && s != "web" && s != "retry" && s != "ask_user" ==>
            res.value == EnhancedAnswer(first.answer, [], Metrics(c), None, Some("Low confidence in retrieved context")))
  {
    if r.index.None? then Err("Retriever not initialized. Load index first.")
    else
      var first := rag(query);
      var c := EvaluateContextConfidence(ContextOf(first.sourceDocuments), query, ask, toLinear);
      if HighConfidence(c, threshold.GetOr(90.0)) then
        Ok(EnhancedAnswer(first.answer, first.sourceDocuments, Metrics(c), None, None))
      else
        var s := strategy.GetOr("default");
        if s == "web" || s == "retry" then
          var again := rerun(query);
          Ok(EnhancedAnswer(again.answer, again.sourceDocuments, NoMetrics, None, None))
        else if s == "ask_user" then
          Ok(EnhancedAnswer(AskUserAnswer, [], Metrics(c), Some(AskUserSuggestion), None))
        else
          Ok(EnhancedAnswer(first.answer, [], Metrics(c), None, Some("Low confidence in retrieved context")))
  }

  /** Only a trusted answer keeps its sources together with its metrics. */
  lemma SourcesWithMetricsOnlyWhenTrusted(r: Rag, query: string, threshold: Option<real>, strategy: Option<string>,
                                          rag: string -> RagAnswer, rerun: string -> RagAnswer,
                                          ask: string -> Option<seq<TokenLogProb>>, toLinear: real -> real)
    requires PerformEnhancedRAG(r, query, threshold, strategy, rag, rerun, ask, toLinear).Ok?
    requires var res := PerformEnhancedRAG(r, query, threshold, strategy, rag, rerun, ask, toLinear).value;
      res.confidenceMetrics.Metrics? && res.sourceDocuments != []
    ensures HighConfidence(EvaluateContextConfidence(ContextOf(rag(query).sourceDocuments), query, ask, toLinear),
                           threshold.GetOr(90.0))
  {
  }
}
