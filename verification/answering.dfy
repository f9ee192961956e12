/** The retrieval + answer path of the direct answer generator: context assembly
    from retrieved chunks under a 4000-character budget, prompt capping and answer
    validation, the retried and deadline-guarded per-question path with its
    apology fallback, and the order-preserving fan-out over a question list. */
module Answering {
  import opened Text
  import opened Errors
  import opened Resilience

  // ---------------------------------------------------------------------------
  // Context assembly
  // ---------------------------------------------------------------------------

  const MaxContextLength := 4000
  /** A chunk that overflows the budget is cut only when more than this remains. */
  const MinRemainingSpace := 100
  const Ellipsis := "..."

  /** One labelled piece of the context: the chunk's 1-based position in the
      retrieval result and the (stripped, possibly cut) text kept from it. */
  datatype Part = Part(position: nat, body: string)

  /** Sum of the kept text lengths: the quantity the budget is checked against. */
  function Counted(parts: seq<Part>): nat {
    if |parts| == 0 then 0 else |parts[0].body| + Counted(parts[1..])
  }

  lemma CountedCons(p: Part, parts: seq<Part>)
    ensures Counted([p] + parts) == |p.body| + Counted(parts)
  {
    assert ([p] + parts)[1..] == parts;
  }

  /** The stripped text of every retrieved chunk, in retrieval order. */
  function Contents(docs: seq<string>): (contents: seq<string>)
    ensures |contents| == |docs|
  {
    seq(|docs|, k requires 0 <= k < |docs| => Strip(docs[k]))
  }

  /** Reference for the budget-free outcome: every stripped chunk text from index
      `i` on that is not empty, labelled with its original 1-based position. */
  function FullParts(contents: seq<string>, i: nat): (parts: seq<Part>)
    requires i <= |contents|
    decreases |contents| - i
  {
    if i == |contents| then []
    else if |contents[i]| == 0 then FullParts(contents, i + 1)
    else [Part(i + 1, contents[i])] + FullParts(contents, i + 1)
  }

  /** Every part is a non-empty chunk text from index `i` on, labelled with its
      own 1-based position, and the positions increase. */
  predicate LabelsChunks(contents: seq<string>, i: nat, parts: seq<Part>) {
    && (forall k :: 0 <= k < |parts| ==> i < parts[k].position <= |contents|)
    && (forall k :: 0 <= k < |parts| ==> parts[k].body == contents[parts[k].position - 1])
    && (forall k :: 0 <= k < |parts| ==> |parts[k].body| > 0)
  }

  /** The positions of the parts increase. */
  predicate Ascending(parts: seq<Part>) {
    forall k, l :: 0 <= k < l < |parts| ==> parts[k].position < parts[l].position
  }

  /** The reference keeps non-empty chunk texts only, each under its own position. */
  lemma {:induction false} FullPartsLabelsChunks(contents: seq<string>, i: nat)
    requires i <= |contents|
    ensures LabelsChunks(contents, i, FullParts(contents, i))
    decreases |contents| - i
  {
    if i < |contents| {
      FullPartsLabelsChunks(contents, i + 1);
      var rest := FullParts(contents, i + 1);
      assert LabelsChunks(contents, i + 1, rest);
      if |contents[i]| > 0 {
        var parts := [Part(i + 1, contents[i])] + rest;
        assert FullParts(contents, i) == parts;
        forall k | 0 <= k < |parts|
          ensures i < parts[k].position <= |contents|
          ensures parts[k].body == contents[parts[k].position - 1] && |parts[k].body| > 0
        {
          if k > 0 { assert parts[k] == rest[k - 1]; }
        }
      }
    }
  }

  lemma ConsAscending(p: Part, rest: seq<Part>)
    requires Ascending(rest)
    requires forall k :: 0 <= k < |rest| ==> p.position < rest[k].position
    ensures Ascending([p] + rest)
  {
    var parts := [p] + rest;
    forall k, l | 0 <= k < l < |parts| ensures parts[k].position < parts[l].position {
      assert parts[l] == rest[l - 1];
      if k > 0 { assert parts[k] == rest[k - 1]; }
    }
  }

  /** The reference lists the chunks in retrieval order. */
  lemma {:induction false} FullPartsInOrder(contents: seq<string>, i: nat)
    requires i <= |contents|
    ensures Ascending(FullParts(contents, i))
    decreases |contents| - i
  {
    if i < |contents| {
      FullPartsInOrder(contents, i + 1);
      FullPartsLabelsChunks(contents, i + 1);
      var rest := FullParts(contents, i + 1);
      assert Ascending(rest) && LabelsChunks(contents, i + 1, rest);
      if |contents[i]| > 0 {
        assert FullParts(contents, i) == [Part(i + 1, contents[i])] + rest;
        ConsAscending(Part(i + 1, contents[i]), rest);
      }
    }
  }

  /** The reference keeps exactly the chunks that are not empty after stripping. */
  lemma {:induction false} FullPartsEmptyIffAllEmpty(contents: seq<string>, i: nat)
    requires i <= |contents|
    ensures |FullParts(contents, i)| == 0 <==> forall k :: i <= k < |contents| ==> |contents[k]| == 0
    decreases |contents| - i
  {
    if i < |contents| {
      FullPartsEmptyIffAllEmpty(contents, i + 1);
    }
  }

  /** `body` is `full` cut to more than 100 characters, plus "...". */
  predicate IsCutOf(body: string, full: string) {
    |body| > MinRemainingSpace + |Ellipsis| && |body| - |Ellipsis| < |full| &&
    body == full[..|body| - |Ellipsis|] + Ellipsis
  }

  /** The loop of `_retrieve_relevant_docs` from chunk index `i` on, with `total`
      characters already counted: blank chunks are skipped; a chunk that fits is
      kept whole; one that overflows is cut to the remaining space plus "..." when
      more than 100 characters remain, and otherwise assembly stops. */
  function AssembleFrom(contents: seq<string>, i: nat, total: nat): (parts: seq<Part>)
    requires i <= |contents|
    decreases |contents| - i
  {
    if i == |contents| then []
    else
      var content := contents[i];
      if |content| == 0 then AssembleFrom(contents, i + 1, total)
      else if total + |content| > MaxContextLength then
        var remaining := MaxContextLength - total;
        if remaining > MinRemainingSpace then
          var body := content[..remaining] + Ellipsis;
          [Part(i + 1, body)] + AssembleFrom(contents, i + 1, total + |body|)
        else []
      else
        [Part(i + 1, content)] + AssembleFrom(contents, i + 1, total + |content|)
  }

  /** Once the counted total is past the budget, nothing more is appended. */
  lemma {:induction false} CutStops(contents: seq<string>, i: nat, total: nat)
    requires i <= |contents|
    requires MaxContextLength < total
    ensures AssembleFrom(contents, i, total) == []
    decreases |contents| - i
  {
    if i < |contents| && |contents[i]| == 0 {
      CutStops(contents, i + 1, total);
    }
  }

  /** A chunk that overflows the budget with more than 100 characters left is cut
      to exactly fill the budget, "..." is appended, and nothing follows it. */
  lemma CutEndsAssembly(contents: seq<string>, i: nat, total: nat)
    requires i < |contents|
    requires total + |contents[i]| > MaxContextLength
    requires MaxContextLength - total > MinRemainingSpace
    ensures var body := contents[i][..MaxContextLength - total] + Ellipsis;
            && AssembleFrom(contents, i, total) == [Part(i + 1, body)]
            && total + Counted([Part(i + 1, body)]) == MaxContextLength + |Ellipsis|
            && IsCutOf(body, contents[i])
  {
    var body := contents[i][..MaxContextLength - total] + Ellipsis;
    CutStops(contents, i + 1, total + |body|);
    CountedCons(Part(i + 1, body), []);
  }

  /** The assembled parts are a prefix of the budget-free reference: the same
      chunks in the same order with the same labels, all kept whole except
      possibly the last, which is then a cut of its chunk. */
  lemma {:induction false} AssembleIsPrefixOfFull(contents: seq<string>, i: nat, total: nat)
    requires i <= |contents|
    ensures var parts := AssembleFrom(contents, i, total);
            var full := FullParts(contents, i);
            && |parts| <= |full|
            && (forall k :: 0 <= k < |parts| ==> parts[k].position == full[k].position)
            && (forall k :: 0 <= k < |parts| ==>
                  parts[k].body == full[k].body || (k == |parts| - 1 && IsCutOf(parts[k].body, full[k].body)))
    decreases |contents| - i
  {
    if i < |contents| {
      var content := contents[i];
      if |content| == 0 {
        AssembleIsPrefixOfFull(contents, i + 1, total);
      } else if total + |content| > MaxContextLength {
        if MaxContextLength - total > MinRemainingSpace {
          CutEndsAssembly(contents, i, total);
          assert FullParts(contents, i)[0] == Part(i + 1, content);
        }
      } else {
        var parts := AssembleFrom(contents, i, total);
        var full := FullParts(contents, i);
        var rest := AssembleFrom(contents, i + 1, total + |content|);
        var fullRest := FullParts(contents, i + 1);
        assert parts == [Part(i + 1, content)] + rest;
        assert full == [Part(i + 1, content)] + fullRest;
        AssembleIsPrefixOfFull(contents, i + 1, total + |content|);
        forall k | 0 <= k < |parts|
          ensures parts[k].position == full[k].position
          ensures parts[k].body == full[k].body || (k == |parts| - 1 && IsCutOf(parts[k].body, full[k].body))
        {
          if k > 0 {
            assert parts[k] == rest[k - 1] && full[k] == fullRest[k - 1];
          }
        }
      }
    }
  }

  /** The counted length of the context never exceeds the budget plus "...". */
  lemma {:induction false} AssembleWithinBudget(contents: seq<string>, i: nat, total: nat)
    requires i <= |contents|
    requires total <= MaxContextLength + |Ellipsis|
    ensures total + Counted(AssembleFrom(contents, i, total)) <= MaxContextLength + |Ellipsis|
    decreases |contents| - i
  {
    if i < |contents| {
      var content := contents[i];
      if |content| == 0 {
        AssembleWithinBudget(contents, i + 1, total);
      } else if total + |content| > MaxContextLength {
        if MaxContextLength - total > MinRemainingSpace {
          CutEndsAssembly(contents, i, total);
        }
      } else {
        var rest := AssembleFrom(contents, i + 1, total + |content|);
        AssembleWithinBudget(contents, i + 1, total + |content|);
        CountedCons(Part(i + 1, content), rest);
      }
    }
  }

  /** `parts`, assembled after `total` characters, stop before the end of `full`
      only because the next chunk would not fit, and then either right after a
      cut or with at most 100 characters of budget left. */
  predicate StopsOnlyWhenFull(total: int, parts: seq<Part>, full: seq<Part>) {
    |parts| < |full| ==>
      && total + Counted(parts) + |full[|parts|].body| > MaxContextLength
      && ((|parts| > 0 && IsCutOf(parts[|parts| - 1].body, full[|parts| - 1].body)) ||
          MaxContextLength - (total + Counted(parts)) <= MinRemainingSpace)
  }

  /** Putting the same whole part in front of both sequences keeps the stopping
      condition, with the part's length counted. */
  lemma StopsConsFitting(p: Part, total: int, rest: seq<Part>, fullRest: seq<Part>)
    requires StopsOnlyWhenFull(total + |p.body|, rest, fullRest)
    ensures StopsOnlyWhenFull(total, [p] + rest, [p] + fullRest)
  {
    var parts := [p] + rest;
    var full := [p] + fullRest;
    CountedCons(p, rest);
    if |parts| < |full| {
      var n := |rest|;
      assert full[n + 1] == fullRest[n];
      if n > 0 {
        assert parts[n] == rest[n - 1];
        assert full[n] == fullRest[n - 1];
      }
    }
  }

  /** A chunk that does not fit ends assembly, after a cut or with at most 100
      characters of budget left. */
  lemma StopsOnOverflow(contents: seq<string>, i: nat, total: nat)
    requires i < |contents| && |contents[i]| > 0
    requires total + |contents[i]| > MaxContextLength
    ensures StopsOnlyWhenFull(total, AssembleFrom(contents, i, total), FullParts(contents, i))
  {
    assert FullParts(contents, i)[0] == Part(i + 1, contents[i]);
    if MaxContextLength - total > MinRemainingSpace {
      CutEndsAssembly(contents, i, total);
    } else {
      assert AssembleFrom(contents, i, total) == [];
    }
  }

  /** Assembly stops before the end of the reference only when the next chunk
      would not fit, and then either right after a cut or with at most 100
      characters of budget left. */
  lemma {:induction false} AssembleStopsOnlyWhenFull(contents: seq<string>, i: nat, total: nat)
    requires i <= |contents|
    ensures StopsOnlyWhenFull(total, AssembleFrom(contents, i, total), FullParts(contents, i))
    decreases |contents| - i
  {
    if i < |contents| {
      var content := contents[i];
      if |content| == 0 {
        SkipBlankChunk(contents, i, total);
        AssembleStopsOnlyWhenFull(contents, i + 1, total);
      } else if total + |content| > MaxContextLength {
        StopsOnOverflow(contents, i, total);
      } else {
        KeepFittingChunk(contents, i, total);
        AssembleStopsOnlyWhenFull(contents, i + 1, total + |content|);
        StopsConsFitting(Part(i + 1, content), total, AssembleFrom(contents, i + 1, total + |content|),
                         FullParts(contents, i + 1));
      }
    }
  }

  /** One unfolding step of the reference and of assembly for a blank chunk. */
  lemma SkipBlankChunk(contents: seq<string>, i: nat, total: nat)
    requires i < |contents| && |contents[i]| == 0
    ensures FullParts(contents, i) == FullParts(contents, i + 1)
    ensures AssembleFrom(contents, i, total) == AssembleFrom(contents, i + 1, total)
  {
  }

  /** One unfolding step of the reference and of assembly for a chunk that fits. */
  lemma KeepFittingChunk(contents: seq<string>, i: nat, total: nat)
    requires i < |contents| && |contents[i]| > 0
    requires total + |contents[i]| <= MaxContextLength
    ensures FullParts(contents, i) == [Part(i + 1, contents[i])] + FullParts(contents, i + 1)
    ensures AssembleFrom(contents, i, total)
            == [Part(i + 1, contents[i])] + AssembleFrom(contents, i + 1, total + |contents[i]|)
  {
  }

  /** When all the non-blank chunks fit the budget together, every one of them is
      kept whole. */
  lemma {:induction false} AssembleKeepsAllWhenWithinBudget(contents: seq<string>, i: nat, total: nat)
    requires i <= |contents|
    requires total + Counted(FullParts(contents, i)) <= MaxContextLength
    ensures AssembleFrom(contents, i, total) == FullParts(contents, i)
    decreases |contents| - i
  {
    if i < |contents| {
      if |contents[i]| == 0 {
        SkipBlankChunk(contents, i, total);
        AssembleKeepsAllWhenWithinBudget(contents, i + 1, total);
      } else {
        var part := Part(i + 1, contents[i]);
        CountedCons(part, FullParts(contents, i + 1));
        KeepFittingChunk(contents, i, total);
        AssembleKeepsAllWhenWithinBudget(contents, i + 1, total + |contents[i]|);
      }
    }
  }

  /** The label `Document i:` followed by the kept text. */
  function Label(p: Part): string {
    "Document " + NatToString(p.position) + ":\n" + p.body
  }

  function Labels(parts: seq<Part>): (labels: seq<string>)
    ensures |labels| == |parts|
    ensures forall k :: 0 <= k < |parts| ==> labels[k] == Label(parts[k])
  {
    seq(|parts|, k requires 0 <= k < |parts| => Label(parts[k]))
  }

  /** The context `_retrieve_relevant_docs` returns for the retrieved chunk texts:
      the labelled parts joined by a blank line, or the search fallback text when
      nothing was retrieved or every chunk was blank. */
  function ContextFor(docs: seq<string>): (context: string) {
    if |docs| == 0 then SearchFallbackText
    else
      var parts := AssembleFrom(Contents(docs), 0, 0);
      if |parts| == 0 then SearchFallbackText else Join(Labels(parts), "\n\n")
  }

  lemma {:induction false} JoinStartsWithFirst(parts: seq<string>, sep: string)
    requires |parts| > 0
    ensures parts[0] <= Join(parts, sep)
  {
  }

  /** A labelled context never coincides with the search fallback text. */
  lemma LabelledContextIsNotFallback(parts: seq<Part>)
    requires |parts| > 0
    ensures Join(Labels(parts), "\n\n") != SearchFallbackText
  {
    var labels := Labels(parts);
    JoinStartsWithFirst(labels, "\n\n");
    assert labels[0][0] == 'D';
    assert SearchFallbackText[0] == 'I';
  }

  /** Something is assembled exactly when some chunk is not blank: the first
      non-blank chunk always fits at least in part into an empty budget. */
  lemma AssembleEmptyIffFullEmpty(contents: seq<string>)
    ensures |AssembleFrom(contents, 0, 0)| == 0 <==> |FullParts(contents, 0)| == 0
  {
    AssembleIsPrefixOfFull(contents, 0, 0);
    AssembleStopsOnlyWhenFull(contents, 0, 0);
  }

  /** The search fallback text is used exactly when every retrieved chunk is blank
      (in particular when none was retrieved). */
  lemma ContextFallbackIffAllBlank(docs: seq<string>)
    ensures ContextFor(docs) == SearchFallbackText <==> forall k :: 0 <= k < |docs| ==> IsBlank(docs[k])
  {
    var contents := Contents(docs);
    FullPartsEmptyIffAllEmpty(contents, 0);
    forall k | 0 <= k < |docs| ensures |contents[k]| == 0 <==> IsBlank(docs[k]) {
      StripEmptyIffBlank(docs[k]);
    }
    AssembleEmptyIffFullEmpty(contents);
    var parts := AssembleFrom(contents, 0, 0);
    if |docs| > 0 && |parts| > 0 {
      LabelledContextIsNotFallback(parts);
    }
  }

  // ---------------------------------------------------------------------------
  // Retrieval
  // ---------------------------------------------------------------------------

  /** `_retrieve_relevant_docs` after the similarity search returned `search`
      (the chunk texts, or the exception it raised). Every failure, including the
      two input checks, is re-raised as a VectorStoreError for "document_retrieval". */
  function RetrieveRelevantDocs(vectorStorePresent: bool, question: string,
                                search: Result<seq<string>>): (r: Result<string>)
    ensures r.Ok? <==> vectorStorePresent && !IsBlank(question) && search.Ok?
    ensures r.Ok? ==> r.value == ContextFor(search.value)
    ensures r.Err? ==> r.error.VectorStore? && r.error.operation == "document_retrieval"
    ensures vectorStorePresent && !IsBlank(question) && search.Err? ==>
              r == Err(VectorStore("document_retrieval", Str(search.error)))
  {
    if !vectorStorePresent then
      Err(VectorStore("document_retrieval", Str(VectorStore("document_retrieval", "Vector store not available"))))
    else if IsBlank(question) then
      Err(VectorStore("document_retrieval",
                      Str(DocumentProcessing("document_retrieval", "Empty question provided for retrieval"))))
    else
      match search
      case Err(e) => Err(VectorStore("document_retrieval", Str(e)))
      case Ok(docs) => Ok(ContextFor(docs))
  }

  // ---------------------------------------------------------------------------
  // Answer generation
  // ---------------------------------------------------------------------------

  const MaxPromptContext := 4000
  const MaxPromptQuestion := 500

  const SystemInstruction :=
    "You are an expert document query assistant. Based on the provided context from relevant documents, answer the question in 1 paragraph. If the context doesn't contain enough information to answer the question, say so clearly."

  datatype Prompt = Prompt(system: string, human: string)

  /** Python `s[:n]`. */
  function Prefix(s: string, n: nat): (r: string)
    ensures |r| <= n && r <= s
    ensures |s| <= n ==> r == s
    ensures |s| > n ==> |r| == n
  {
    if |s| <= n then s else s[..n]
  }

  const ContextLabel := "Context:\n"
  const QuestionLabel := "\n\nQuestion: "
  const AnswerLabel := "\n\nAnswer:"

  /** `human` is the human template filled in with `c` and `q`: the context label,
      `c`, the question label, `q` and the answer label, each at its own place. */
  predicate FillsTemplate(human: string, c: string, q: string) {
    var i := |ContextLabel|;
    var j := i + |c|;
    var k := j + |QuestionLabel|;
    var l := k + |q|;
    && |human| == l + |AnswerLabel|
    && human[..i] == ContextLabel && human[i..j] == c && human[j..k] == QuestionLabel
    && human[k..l] == q && human[l..] == AnswerLabel
  }

  /** The two-message prompt, with the context cut to 4000 and the question to 500
      characters whatever the caller supplied. */
  function BuildPrompt(context: string, question: string): (p: Prompt)
    ensures p.system == SystemInstruction
    ensures FillsTemplate(p.human, Prefix(context, MaxPromptContext), Prefix(question, MaxPromptQuestion))
    ensures |p.human| <= MaxPromptContext + MaxPromptQuestion + |ContextLabel + QuestionLabel + AnswerLabel|
  {
    var c := Prefix(context, MaxPromptContext);
    var q := Prefix(question, MaxPromptQuestion);
    var human := ContextLabel + c + QuestionLabel + q + AnswerLabel;
    assert human[..|ContextLabel|] == ContextLabel;
    assert human[|ContextLabel|..|ContextLabel| + |c|] == c;
    assert human[|ContextLabel| + |c|..|ContextLabel| + |c| + |QuestionLabel|] == QuestionLabel;
    assert human[|ContextLabel| + |c| + |QuestionLabel|..|ContextLabel| + |c| + |QuestionLabel| + |q|] == q;
    assert human[|ContextLabel| + |c| + |QuestionLabel| + |q|..] == AnswerLabel;
    Prompt(SystemInstruction, human)
  }

  /** Inputs within the caps reach the model whole: the prompt carries the full
      context and the full question. */
  lemma PromptKeepsShortInputs(context: string, question: string)
    requires |context| <= MaxPromptContext && |question| <= MaxPromptQuestion
    ensures FillsTemplate(BuildPrompt(context, question).human, context, question)
  {
  }

  /** A longer context is cut to exactly its first 4000 characters, and a longer
      question to its first 500, each right after its label. */
  lemma PromptCutsLongInputs(context: string, question: string)
    ensures var h := BuildPrompt(context, question).human;
            |context| > MaxPromptContext ==>
              h[|ContextLabel|..|ContextLabel| + MaxPromptContext] == context[..MaxPromptContext]
    ensures var h := BuildPrompt(context, question).human;
            var k := |ContextLabel| + |Prefix(context, MaxPromptContext)| + |QuestionLabel|;
            |question| > MaxPromptQuestion ==> h[k..k + MaxPromptQuestion] == question[..MaxPromptQuestion]
  {
  }

  /** What one attempt of `generate_answer` returned or raised, and the prompt it
      sent to the model (None when the model was not called). */
  datatype GenerateStep = GenerateStep(result: Result<string>, prompt: Option<Prompt>)

  const EmptyQuestion := DocumentProcessing("answer_generation", "Empty question provided")

  const LlmNotReadyText :=
    "Global resources not initialized. " +
    "Call global_resources.initialize() " +
    "first."

  /** One attempt of `generate_answer`. `llmReady` says whether the model client
      can be obtained from the registry; `reply` is what the model call returned
      (`Ok(None)` for a response without content) or raised. */
  function GenerateAttempt(context: string, question: string, llmReady: bool,
                           reply: Result<Option<string>>): (step: GenerateStep)
    ensures IsBlank(context) ==> step == GenerateStep(Ok(AnswerFallbackText), None)
    ensures step.result == GenerateResult(context, question, llmReady, reply)
    ensures step.prompt.Some? <==> !IsBlank(context) && !IsBlank(question) && llmReady
    ensures step.prompt.Some? ==> step.prompt.value == BuildPrompt(context, question)
    ensures step.prompt.Some? ==> step.result == ReplyOutcome(reply)
    ensures !IsBlank(context) && IsBlank(question) ==>
              step.result == Err(ExternalService("llm", Str(EmptyQuestion)))
    ensures !IsBlank(context) && !IsBlank(question) && !llmReady ==>
              step.result == Err(ExternalService("llm", LlmNotReadyText))
    ensures step.result.Ok? ==>
              step.result.value == AnswerFallbackText ||
              (step.prompt.Some? && reply.Ok? && reply.value.Some? &&
               step.result.value == Strip(reply.value.value) && |step.result.value| > 0)
    ensures step.prompt.Some? && reply.Ok? && reply.value.Some? && |Strip(reply.value.value)| > 0 ==>
              step.result == Ok(Strip(reply.value.value))
    ensures step.result.Err? ==>
              step.result.error.ExternalService? || step.result.error == Timeout("answer_generation", LlmGenerationTimeout)
  {
    var calls := !IsBlank(context) && !IsBlank(question) && llmReady;
    GenerateStep(GenerateResult(context, question, llmReady, reply),
                 if calls then Some(BuildPrompt(context, question)) else None)
  }

  /** What one attempt of `generate_answer` returns or raises. */
  function GenerateResult(context: string, question: string, llmReady: bool,
                          reply: Result<Option<string>>): Result<string>
  {
    if IsBlank(context) then Ok(AnswerFallbackText)
    else if IsBlank(question) then Err(ExternalService("llm", Str(EmptyQuestion)))
    else if !llmReady then Err(ExternalService("llm", LlmNotReadyText))
    else ReplyOutcome(reply)
  }

  /** How `generate_answer` handles what the model call returned or raised: an
      asyncio timeout becomes the model TimeoutError, any other exception an
      ExternalServiceError, a response without content an error, and an answer
      that strips to nothing the apology. */
  function ReplyOutcome(reply: Result<Option<string>>): (r: Result<string>)
    ensures r.Ok? <==> reply.Ok? && reply.value.Some?
    ensures r.Ok? && |Strip(reply.value.value)| > 0 ==> r.value == Strip(reply.value.value)
    ensures r.Ok? && |Strip(reply.value.value)| == 0 ==> r.value == AnswerFallbackText
    ensures r.Err? ==> r.error.ExternalService? || r.error == Timeout("answer_generation", LlmGenerationTimeout)
    ensures reply == Err(AsyncTimeout) ==> r == Err(Timeout("answer_generation", LlmGenerationTimeout))
    ensures reply.Err? && reply.error.ExternalService? ==> r == Err(reply.error)
    ensures reply.Err? && reply.error != AsyncTimeout && !reply.error.ExternalService? ==>
              r == Err(ExternalService("llm", Str(reply.error)))
    ensures reply == Ok(None) ==> r == Err(ExternalService("llm", "Invalid response from LLM service"))
  {
    match reply
    case Err(AsyncTimeout) => Err(Timeout("answer_generation", LlmGenerationTimeout))
    case Err(ExternalService(s, m)) => Err(ExternalService(s, m))
    case Err(e) => Err(ExternalService("llm", Str(e)))
    case Ok(None) => Err(ExternalService("llm", "Invalid response from LLM service"))
    case Ok(Some(content)) =>
      var answer := Strip(content);
      if |answer| == 0 then Ok(AnswerFallbackText) else Ok(answer)
  }

  /** The classes `generate_answer` and `_answer_single_question` retry on. */
  const RetriedOnExternalService: seq<ExcClass> := [ExternalServiceClass]

  /** `generate_answer` with its retry decorator (two retries, 1 s backoff, on
      ExternalServiceError); `replies(a)` is the model's reply on attempt `a`. */
  function GenerateAnswer(context: string, question: string, llmReady: bool,
                          replies: nat -> Result<Option<string>>): (run: RetryRun<string>)
    ensures 1 <= run.calls <= 3
    ensures run.result == GenerateResult(context, question, llmReady, replies(run.calls - 1))
    ensures IsBlank(context) ==> run.calls == 1 && run.result == Ok(AnswerFallbackText)
  {
    var op := (a: nat) => GenerateResult(context, question, llmReady, replies(a));
    if IsBlank(context) then
      assert op(0) == GenerateResult(context, question, llmReady, replies(0));
      RetryStopsAt(op, 2, 1000, RetriedOnExternalService, 0);
      Retry(op, 2, 1000, RetriedOnExternalService)
    else
      Retry(op, 2, 1000, RetriedOnExternalService)
  }

  /** Every attempt before the last raised an ExternalServiceError: the
      decorator retries nothing else, in particular not a model timeout. */
  lemma GenerateRetriesOnlyServiceErrors(context: string, question: string, llmReady: bool,
                                         replies: nat -> Result<Option<string>>)
    ensures var run := GenerateAnswer(context, question, llmReady, replies);
            forall a :: 0 <= a < run.calls - 1 ==>
              GenerateResult(context, question, llmReady, replies(a)).Err? &&
              GenerateResult(context, question, llmReady, replies(a)).error.ExternalService?
  {
    var op := (a: nat) => GenerateResult(context, question, llmReady, replies(a));
    var run := GenerateAnswer(context, question, llmReady, replies);
    assert run == Retry(op, 2, 1000, RetriedOnExternalService);
    forall a | 0 <= a < run.calls - 1
      ensures GenerateResult(context, question, llmReady, replies(a)).Err? &&
              GenerateResult(context, question, llmReady, replies(a)).error.ExternalService?
    {
      assert op(a).Err? && Catches(RetriedOnExternalService, op(a).error);
      assert op(a) == GenerateResult(context, question, llmReady, replies(a));
    }
  }

  /** Every failure of a generation attempt other than a model timeout is an
      ExternalServiceError, so the retry decorator retries it. */
  lemma GenerateFailuresAreRetried(context: string, question: string, llmReady: bool,
                                   reply: Result<Option<string>>)
    ensures var r := GenerateAttempt(context, question, llmReady, reply).result;
            r.Err? && r.error != Timeout("answer_generation", LlmGenerationTimeout) ==>
              Catches(RetriedOnExternalService, r.error)
  {
    var r := GenerateAttempt(context, question, llmReady, reply).result;
    if r.Err? && r.error != Timeout("answer_generation", LlmGenerationTimeout) {
      assert IsInstance(r.error, RetriedOnExternalService[0]);
    }
  }

  /** A model timeout is not retried: after `k` model failures of other kinds,
      a timeout on attempt `k` ends the run there with the TimeoutError. */
  lemma GenerateStopsOnTimeout(context: string, question: string, replies: nat -> Result<Option<string>>, k: nat)
    requires k <= 2
    requires !IsBlank(context) && !IsBlank(question)
    requires forall a :: 0 <= a < k ==> replies(a).Err? && replies(a).error != AsyncTimeout
    requires replies(k) == Err(AsyncTimeout)
    ensures GenerateAnswer(context, question, true, replies).calls == k + 1
    ensures GenerateAnswer(context, question, true, replies).result
            == Err(Timeout("answer_generation", LlmGenerationTimeout))
  {
    var op := (a: nat) => GenerateResult(context, question, true, replies(a));
    forall a | 0 <= a < k ensures op(a).Err? && Catches(RetriedOnExternalService, op(a).error) {
      assert op(a) == ReplyOutcome(replies(a));
      assert IsInstance(op(a).error, RetriedOnExternalService[0]);
    }
    assert op(k) == Err(Timeout("answer_generation", LlmGenerationTimeout));
    RetryStopsAt(op, 2, 1000, RetriedOnExternalService, k);
  }

  /** A blank question with a non-blank context never reaches the model, yet the
      failure is retryable: all three attempts run and an ExternalServiceError for
      "llm" is raised. */
  lemma BlankQuestionExhaustsRetries(context: string, question: string, llmReady: bool,
                                     replies: nat -> Result<Option<string>>)
    requires !IsBlank(context) && IsBlank(question)
    ensures GenerateAnswer(context, question, llmReady, replies).calls == 3
    ensures GenerateAnswer(context, question, llmReady, replies).result.Err?
    ensures GenerateAnswer(context, question, llmReady, replies).result.error.ExternalService?
    ensures GenerateAnswer(context, question, llmReady, replies).result.error.service == "llm"
  {
    var op := a => GenerateResult(context, question, llmReady, replies(a));
    var e := ExternalService("llm", Str(EmptyQuestion));
    forall a: nat | a <= 2 ensures op(a) == Err(e) && Catches(RetriedOnExternalService, op(a).error) {
      assert op(a) == GenerateResult(context, question, llmReady, replies(a)) == Err(e);
      assert IsInstance(e, RetriedOnExternalService[0]);
    }
    RetryExhausted(op, 2, 1000, RetriedOnExternalService);
  }

  // ---------------------------------------------------------------------------
  // One question
  // ---------------------------------------------------------------------------

  /** What the outside world does for one question: the similarity search result on
      each outer attempt, the model reply on each inner attempt of each outer
      attempt, and whether the 30 s per-question deadline passes. */
  datatype QuestionEnv = QuestionEnv(search: nat -> Result<seq<string>>,
                                     replies: nat -> nat -> Result<Option<string>>,
                                     expired: bool)

  /** One attempt of `_answer_single_question`: validate, retrieve, generate. */
  function AnswerAttempt(question: string, vectorStorePresent: bool, llmReady: bool,
                         search: Result<seq<string>>, replies: nat -> Result<Option<string>>): (r: Result<string>)
    ensures IsBlank(question) ==> r == Err(DocumentProcessing("question_validation", "Empty or invalid question provided"))
    ensures !IsBlank(question) && !(vectorStorePresent && search.Ok?) ==>
              r == RetrieveRelevantDocs(vectorStorePresent, question, search)
    ensures !IsBlank(question) && vectorStorePresent && search.Ok? ==>
              r == GenerateAnswer(ContextFor(search.value), question, llmReady, replies).result
  {
    if IsBlank(question) then
      Err(DocumentProcessing("question_validation", "Empty or invalid question provided"))
    else
      match RetrieveRelevantDocs(vectorStorePresent, question, search)
      case Err(e) => Err(e)
      case Ok(context) => GenerateAnswer(context, question, llmReady, replies).result
  }

  /** `_answer_single_question` with its decorators: retried twice on
      ExternalServiceError with 1 s backoff, under the 30 s deadline. */
  function AnswerSingleQuestion(question: string, vectorStorePresent: bool, llmReady: bool,
                                env: QuestionEnv): (r: Result<string>)
    ensures env.expired ==> r == Err(Timeout("single_question_processing", LlmGenerationTimeout))
  {
    var run := Retry(a => AnswerAttempt(question, vectorStorePresent, llmReady, env.search(a), env.replies(a)),
                     2, 1000, RetriedOnExternalService);
    WithTimeout(if env.expired then Expired else Finished(run.result), LlmGenerationTimeout,
                "single_question_processing")
  }

  /** `_answer_single_question_with_fallback`: the fallback combinator around the
      single-question path, whose fallback ignores the vector store and returns the
      apology. It therefore always yields a string. */
  function AnswerWithFallback(question: string, idx: nat, vectorStorePresent: bool, llmReady: bool,
                              env: QuestionEnv): (answer: string)
    ensures answer == AnswerFallbackText ||
            AnswerSingleQuestion(question, vectorStorePresent, llmReady, env) == Ok(answer)
    ensures AnswerSingleQuestion(question, vectorStorePresent, llmReady, env).Ok? ==>
              answer == AnswerSingleQuestion(question, vectorStorePresent, llmReady, env).value
    ensures AnswerSingleQuestion(question, vectorStorePresent, llmReady, env).Err? ==>
              answer == AnswerFallbackText
  {
    var run := SafeExecuteWithFallback(
      (args: (bool, string, nat)) => AnswerSingleQuestion(args.1, args.0, llmReady, env),
      (args: (bool, string, nat)) => Ok(AnswerFallbackText),
      "question_" + NatToString(idx),
      (vectorStorePresent, question, idx));
    run.result.value
  }

  /** The property shared by every layer of the answer path:
      `a` is the stripped, non-empty content of one of the model's replies. */
  ghost predicate IsModelText(a: string, replies: nat -> Result<Option<string>>) {
    exists i: nat :: replies(i).Ok? && replies(i).value.Some? && a == Strip(replies(i).value.value) && |a| > 0
  }

  /** A generated answer other than the apology is one of the model's replies, stripped. */
  lemma GeneratedAnswerIsModelText(context: string, question: string, llmReady: bool,
                                   replies: nat -> Result<Option<string>>)
    ensures var r := GenerateAnswer(context, question, llmReady, replies).result;
            r.Ok? && r.value != AnswerFallbackText ==> IsModelText(r.value, replies)
  {
    var run := GenerateAnswer(context, question, llmReady, replies);
    if run.result.Ok? && run.result.value != AnswerFallbackText {
      var i := run.calls - 1;
      var a := run.result.value;
      assert GenerateResult(context, question, llmReady, replies(i)) == Ok(a);
      assert !IsBlank(context) && !IsBlank(question) && llmReady;
      assert ReplyOutcome(replies(i)) == Ok(a);
      assert replies(i).Ok? && replies(i).value.Some? && a == Strip(replies(i).value.value) && |a| > 0;
    }
  }

  /** The same holds for one attempt of the single-question path. */
  lemma AttemptAnswerIsModelText(question: string, vectorStorePresent: bool, llmReady: bool,
                                 search: Result<seq<string>>, replies: nat -> Result<Option<string>>)
    ensures var r := AnswerAttempt(question, vectorStorePresent, llmReady, search, replies);
            r.Ok? && r.value != AnswerFallbackText ==> IsModelText(r.value, replies)
  {
    if !IsBlank(question) && vectorStorePresent && search.Ok? {
      GeneratedAnswerIsModelText(ContextFor(search.value), question, llmReady, replies);
    }
  }

  /** The position of a question in the batch never changes its answer. */
  lemma AnswerIgnoresIndex(question: string, idx: nat, idx': nat, vectorStorePresent: bool,
                           llmReady: bool, env: QuestionEnv)
    ensures AnswerWithFallback(question, idx, vectorStorePresent, llmReady, env)
            == AnswerWithFallback(question, idx', vectorStorePresent, llmReady, env)
  {
  }

  /** A per-question answer is the model's stripped, non-empty answer from one of
      the attempts, or the apology. */
  lemma AnswerIsModelTextOrFixed(question: string, idx: nat, vectorStorePresent: bool,
                                 llmReady: bool, env: QuestionEnv)
    ensures var a := AnswerWithFallback(question, idx, vectorStorePresent, llmReady, env);
            a == AnswerFallbackText ||
            exists o: nat :: IsModelText(a, env.replies(o))
  {
    var a := AnswerWithFallback(question, idx, vectorStorePresent, llmReady, env);
    if a != AnswerFallbackText {
      var single := Retry(o => AnswerAttempt(question, vectorStorePresent, llmReady, env.search(o), env.replies(o)),
                          2, 1000, RetriedOnExternalService);
      var o := single.calls - 1;
      assert single.result == Ok(a);
      assert AnswerAttempt(question, vectorStorePresent, llmReady, env.search(o), env.replies(o)) == Ok(a);
      AttemptAnswerIsModelText(question, vectorStorePresent, llmReady, env.search(o), env.replies(o));
    }
  }

  // ---------------------------------------------------------------------------
  // Fan-out over the question list
  // ---------------------------------------------------------------------------

  /** The batch step inside `answer_questions_parallel`: nothing for no questions,
      the apology at every position when the vector store is missing, and otherwise
      one task per enumerated question, collected in input order. */
  function AnswerBatch(questions: seq<string>, vectorStorePresent: bool, llmReady: bool,
                       envs: nat -> QuestionEnv): (answers: seq<string>)
    ensures |answers| == |questions|
    ensures !vectorStorePresent ==> forall i :: 0 <= i < |answers| ==> answers[i] == AnswerFallbackText
    ensures vectorStorePresent ==>
              forall i :: 0 <= i < |answers| ==>
                answers[i] == AnswerWithFallback(questions[i], i, true, llmReady, envs(i))
  {
    if |questions| == 0 then []
    else if !vectorStorePresent then seq(|questions|, _ => AnswerFallbackText)
    else seq(|questions|, i requires 0 <= i < |questions| =>
                            AnswerWithFallback(questions[i], i, vectorStorePresent, llmReady, envs(i)))
  }

  /** `answer_questions_parallel` with its 90 s deadline; `batchExpired` says whether
      the deadline passes, which is the only way the call raises. */
  function AnswerQuestionsParallel(questions: seq<string>, vectorStorePresent: bool, llmReady: bool,
                                   envs: nat -> QuestionEnv, batchExpired: bool): (r: Result<seq<string>>)
    ensures batchExpired ==> r == Err(Timeout("parallel_question_processing", 3 * LlmGenerationTimeout))
    ensures !batchExpired ==> r == Ok(AnswerBatch(questions, vectorStorePresent, llmReady, envs))
  {
    WithTimeout(if batchExpired then Expired else Finished(Ok(AnswerBatch(questions, vectorStorePresent, llmReady, envs))),
                3 * LlmGenerationTimeout, "parallel_question_processing")
  }

  /** An empty question list yields [] whatever the vector store and the services do. */
  lemma NoQuestionsNoWork(vectorStorePresent: bool, llmReady: bool, envs: nat -> QuestionEnv)
    ensures AnswerQuestionsParallel([], vectorStorePresent, llmReady, envs, false) == Ok([])
  {
  }

  /** Order preservation: answering a permutation of the questions (each keeping its
      own environment) yields the same permutation of the answers. */
  lemma FanOutCommutesWithPermutation(questions: seq<string>, perm: seq<nat>, llmReady: bool,
                                      envs: nat -> QuestionEnv, envs': nat -> QuestionEnv)
    requires |perm| == |questions|
    requires forall i :: 0 <= i < |perm| ==> perm[i] < |questions|
    requires forall i :: 0 <= i < |perm| ==> envs'(i) == envs(perm[i])
    ensures var permuted := seq(|perm|, i requires 0 <= i < |perm| => questions[perm[i]]);
            var answers := AnswerBatch(questions, true, llmReady, envs);
            var answers' := AnswerBatch(permuted, true, llmReady, envs');
            forall i :: 0 <= i < |perm| ==> answers'[i] == answers[perm[i]]
  {
    var permuted := seq(|perm|, i requires 0 <= i < |perm| => questions[perm[i]]);
    forall i | 0 <= i < |perm|
      ensures AnswerBatch(permuted, true, llmReady, envs')[i] == AnswerBatch(questions, true, llmReady, envs)[perm[i]]
    {
      AnswerIgnoresIndex(questions[perm[i]], i, perm[i], true, llmReady, envs(perm[i]));
    }
  }
}
