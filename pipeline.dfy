/**
 * The retrieval-augmented answering pipeline: a fixed graph of six nodes
 * (categorize, retrieve, generate, validate, refine, handleHumanAssistance)
 * over one `PipelineState` per invocation.
 *
 * The classifier, re-ranker, relevance scorer, answer validators, handoff
 * message, vector search and language model are not part of this model; they
 * are the fields of a `Services` value and nothing is assumed about them.
 */
module Pipeline {
  import opened Wrappers
  import opened Text
  import opened Documents
  import Sessions

  /** A thrown value: a JavaScript `Error` with its name and message, or anything else. */
  datatype Thrown = ErrorValue(name: string, message: string) | NonError

  datatype Template = RagTemplate | ConversationalRagTemplate

  /** The variables a prompt template is invoked with; the templates' wording is not modelled. */
  datatype LlmRequest =
    | AnswerRequest(template: Template, question: string, context: string, history: string)
    | RefineRequest(question: string, context: string, answer: string)

  datatype Services = Services(
    /** identifyQuestionCategory, as a string */
    classify: string -> string,
    /** vectorStore.similaritySearch(question, k); None when the call throws */
    search: (string, nat) -> Option<seq<Doc>>,
    /** reorderDocumentsByRelevance */
    rerank: (seq<Doc>, string) -> seq<Doc>,
    /** evaluateContextRelevance */
    relevance: (seq<Doc>, string) -> real,
    /** validateAnswerQuality(answer, question) */
    acceptable: (string, string) -> bool,
    /** needsHumanHelp(question, context, answer) */
    needsHuman: (string, seq<Doc>, string) -> bool,
    /** generateHumanHandoffMessage(question) */
    handoff: string -> string,
    /** a prompt template followed by llm.invoke: the response content, or what it throws */
    llm: LlmRequest -> Result<string, Thrown>)

  /** The graph's state channels; a channel no node has written yet is `None`. */
  datatype PipelineState = PipelineState(
    question: string,
    history: seq<Sessions.Message>,
    sessionId: string,
    category: Option<string>,
    context: Option<seq<Doc>>,
    contextRelevance: Option<real>,
    answer: Option<string>,
    needsRefinement: Option<bool>,
    needsHumanAssistance: Option<bool>,
    finalAnswer: Option<string>)

  /** The state `graph.invoke` starts from. */
  function Initial(question: string, history: seq<Sessions.Message>, sessionId: string): PipelineState
  {
    PipelineState(question, history, sessionId, None, None, None, None, None, None, None)
  }

  const GeneralCategory: string := "General"
  const SearchCandidates: nat := 12
  const MinCategoryMatches: nat := 3
  const MaxContextDocs: nat := 4
  const BlockSeparator: string := "\n\n"

  // ---------------------------------------------------------------- retrieve

  /** safeSimilaritySearch: a failing search yields no candidates instead of an error. */
  function SafeSimilaritySearch(svc: Services, question: string, k: nat): (docs: seq<Doc>)
    ensures svc.search(question, k).None? ==> docs == []
    ensures svc.search(question, k).Some? ==> docs == svc.search(question, k).value
  {
    match svc.search(question, k)
    case None => []
    case Some(found) => found
  }

  /** `docs.filter(doc => doc.metadata?.category === category)`. */
  function MatchingCategory(docs: seq<Doc>, category: string): (r: seq<Doc>)
    ensures |r| <= |docs|
    ensures forall d :: d in r <==> d in docs && d.category == Some(category)
    ensures forall d :: multiset(r)[d] == if d.category == Some(category) then multiset(docs)[d] else 0
  {
    if |docs| == 0 then []
    else
      assert docs == [docs[0]] + docs[1..];
      if docs[0].category == Some(category) then [docs[0]] + MatchingCategory(docs[1..], category)
      else MatchingCategory(docs[1..], category)
  }

  /** `filter` keeps the order of the candidates: filtering a concatenation filters each part. */
  lemma {:induction false} MatchingCategoryAppend(a: seq<Doc>, b: seq<Doc>, category: string)
    ensures MatchingCategory(a + b, category) == MatchingCategory(a, category) + MatchingCategory(b, category)
    decreases |a|
  {
    if |a| > 0 {
      assert (a + b)[1..] == a[1..] + b;
      MatchingCategoryAppend(a[1..], b, category);
    } else {
      assert a + b == b;
    }
  }

  /** One candidate is kept exactly when its category metadata is the category. */
  lemma MatchingCategorySingle(d: Doc, category: string)
    ensures MatchingCategory([d], category) == if d.category == Some(category) then [d] else []
  {
    assert [d][1..] == [];
  }

  /**
   * The in-memory category filter of `retrieve`: 'General' keeps every candidate;
   * any other category keeps only the candidates of that category, unless fewer
   * than three match, in which case every candidate is kept.
   */
  function CategoryFilter(docs: seq<Doc>, category: string): (r: seq<Doc>)
    ensures forall d :: d in r ==> d in docs
    ensures category == GeneralCategory ==> r == docs
    ensures r == docs || |r| >= MinCategoryMatches
    ensures r != docs ==> forall d :: d in r <==> d in docs && d.category == Some(category)
    ensures category != GeneralCategory && |MatchingCategory(docs, category)| < MinCategoryMatches ==> r == docs
    ensures category != GeneralCategory && |MatchingCategory(docs, category)| >= MinCategoryMatches ==>
              r == MatchingCategory(docs, category)
  {
    if category != GeneralCategory then
      var filtered := MatchingCategory(docs, category);
      if |filtered| < MinCategoryMatches then docs else filtered
    else docs
  }

  /** Two matching candidates are too few: all candidates are kept. */
  lemma TwoMatchesFallBack(docs: seq<Doc>, category: string)
    requires category != GeneralCategory
    requires |MatchingCategory(docs, category)| == 2
    ensures CategoryFilter(docs, category) == docs
  {
  }

  /** Three matching candidates are enough: only they are kept. */
  lemma ThreeMatchesKept(docs: seq<Doc>, category: string)
    requires category != GeneralCategory
    requires |MatchingCategory(docs, category)| == 3
    ensures CategoryFilter(docs, category) == MatchingCategory(docs, category)
    ensures forall d :: d in CategoryFilter(docs, category) ==> d.category == Some(category)
  {
  }

  /** `ordered.slice(0, 4)`: the first at most four documents, in order. */
  function SelectTop(ordered: seq<Doc>): (r: seq<Doc>)
    ensures |r| == Min(MaxContextDocs, |ordered|)
    ensures r == ordered[..|r|]
  {
    if |ordered| <= MaxContextDocs then ordered else ordered[..MaxContextDocs]
  }

  /**
   * The context `retrieve` selects for a question of the given category: the
   * first min(4, n) of the n re-ranked filtered candidates.
   */
  function SelectedContext(svc: Services, question: string, category: string): (ctx: seq<Doc>)
    ensures |ctx| <= MaxContextDocs
    ensures var ordered := svc.rerank(CategoryFilter(SafeSimilaritySearch(svc, question, SearchCandidates), category), question);
            |ctx| == Min(MaxContextDocs, |ordered|) && ctx == ordered[..|ctx|]
  {
    SelectTop(svc.rerank(CategoryFilter(SafeSimilaritySearch(svc, question, SearchCandidates), category), question))
  }

  // ---------------------------------------------------------------- generate

  /** One context block: `Source: <source or "Company Document">` on its own line, then the page content. */
  function FormatDoc(d: Doc): string
  {
    "Source: " + StringOr(d.source, "Company Document") + "\n" + d.pageContent
  }

  /** The context handed to the answer template: one block per document, in order, separated by a blank line. */
  function FormatContext(docs: seq<Doc>): (r: string)
    ensures |docs| == 0 ==> r == ""
    ensures |docs| > 0 ==> |FormatDoc(docs[0])| <= |r| && r[..|FormatDoc(docs[0])|] == FormatDoc(docs[0])
  {
    Join(seq(|docs|, i requires 0 <= i < |docs| => FormatDoc(docs[i])), BlockSeparator)
  }

  /** One history line: `role: content`. */
  function FormatTurn(m: Sessions.Message): string
  {
    Sessions.RoleName(m.role) + ": " + m.content
  }

  /** The history handed to the answer template; empty when there is no history. */
  function HistoryText(history: seq<Sessions.Message>): (r: string)
    ensures r == "" <==> |history| == 0
    ensures |history| > 0 ==> |FormatTurn(history[0])| <= |r| && r[..|FormatTurn(history[0])|] == FormatTurn(history[0])
  {
    if |history| > 0 then Join(seq(|history|, i requires 0 <= i < |history| => FormatTurn(history[i])), BlockSeparator)
    else ""
  }

  /** The conversational template is used exactly when there is history. */
  function ChooseTemplate(history: seq<Sessions.Message>): (t: Template)
    ensures t == ConversationalRagTemplate <==> |history| > 0
  {
    if |history| > 0 then ConversationalRagTemplate else RagTemplate
  }

  /** The context handed to the refinement template: page contents only, no source lines. */
  function RefinementContext(docs: seq<Doc>): (r: string)
    ensures |docs| == 0 ==> r == ""
    ensures |docs| > 0 ==> |docs[0].pageContent| <= |r| && r[..|docs[0].pageContent|] == docs[0].pageContent
  {
    Join(seq(|docs|, i requires 0 <= i < |docs| => docs[i].pageContent), BlockSeparator)
  }

  /** The refinement context of one document is its page content alone, with no source line. */
  lemma RefinementContextSingle(d: Doc)
    ensures RefinementContext([d]) == d.pageContent
  {
    assert seq(1, i requires 0 <= i < 1 => [d][i].pageContent) == [d.pageContent];
  }

  /** The refinement context of a concatenation is the two contexts joined by a blank line. */
  lemma RefinementContextAppend(a: seq<Doc>, b: seq<Doc>)
    requires |a| > 0 && |b| > 0
    ensures RefinementContext(a + b) == RefinementContext(a) + BlockSeparator + RefinementContext(b)
  {
    var pa := seq(|a|, i requires 0 <= i < |a| => a[i].pageContent);
    var pb := seq(|b|, i requires 0 <= i < |b| => b[i].pageContent);
    assert seq(|a + b|, i requires 0 <= i < |a + b| => (a + b)[i].pageContent) == pa + pb;
    JoinAppend(pa, pb, BlockSeparator);
  }

  /** Context blocks keep the order of the documents: the context of a concatenation is the two contexts joined by a blank line. */
  lemma FormatContextAppend(a: seq<Doc>, b: seq<Doc>)
    requires |a| > 0 && |b| > 0
    ensures FormatContext(a + b) == FormatContext(a) + BlockSeparator + FormatContext(b)
  {
    var fa := seq(|a|, i requires 0 <= i < |a| => FormatDoc(a[i]));
    var fb := seq(|b|, i requires 0 <= i < |b| => FormatDoc(b[i]));
    assert seq(|a + b|, i requires 0 <= i < |a + b| => FormatDoc((a + b)[i])) == fa + fb;
    JoinAppend(fa, fb, BlockSeparator);
  }

  /** A single document's context block, with the source label defaulted when it is missing or empty. */
  lemma FormatContextSingle(d: Doc)
    ensures d.source.Some? && d.source.value != "" ==>
              FormatContext([d]) == "Source: " + d.source.value + "\n" + d.pageContent
    ensures d.source.None? || d.source.value == "" ==>
              FormatContext([d]) == "Source: Company Document\n" + d.pageContent
  {
    assert seq(1, i requires 0 <= i < 1 => FormatDoc([d][i])) == [FormatDoc(d)];
  }

  /** No history gives empty history text; appending a turn to a non-empty history adds `\n\nrole: content`. */
  lemma HistoryTextShape(history: seq<Sessions.Message>, m: Sessions.Message)
    ensures HistoryText([]) == ""
    ensures HistoryText([m]) == Sessions.RoleName(m.role) + ": " + m.content
    ensures |history| > 0 ==> HistoryText(history + [m]) == HistoryText(history) + BlockSeparator + FormatTurn(m)
  {
    assert seq(1, i requires 0 <= i < 1 => FormatTurn([m][i])) == [FormatTurn(m)];
    if |history| > 0 {
      var fh := seq(|history|, i requires 0 <= i < |history| => FormatTurn(history[i]));
      assert seq(|history + [m]|, i requires 0 <= i < |history + [m]| => FormatTurn((history + [m])[i])) == fh + [FormatTurn(m)];
      JoinSnoc(fh, FormatTurn(m), BlockSeparator);
    }
  }

  // ---------------------------------------------------------------- nodes

  /** Step 1: the category of the question. */
  function Categorize(s: PipelineState, svc: Services): (r: PipelineState)
    ensures r == s.(category := Some(svc.classify(s.question)))
  {
    s.(category := Some(svc.classify(s.question)))
  }

  /** Step 2: search twelve candidates, filter by category, re-rank, keep the top four and score them. */
  function Retrieve(s: PipelineState, svc: Services): (r: PipelineState)
    requires s.category.Some?
    ensures r.context == Some(SelectedContext(svc, s.question, s.category.value))
    ensures |r.context.value| <= MaxContextDocs
    ensures r.contextRelevance == Some(svc.relevance(r.context.value, s.question))
    ensures r == s.(context := r.context, contextRelevance := r.contextRelevance)
  {
    var selected := SelectedContext(svc, s.question, s.category.value);
    s.(context := Some(selected), contextRelevance := Some(svc.relevance(selected, s.question)))
  }

  /** The request that `generate` sends to the language model. */
  function AnswerRequestFor(s: PipelineState): LlmRequest
    requires s.context.Some?
  {
    AnswerRequest(ChooseTemplate(s.history), s.question, FormatContext(s.context.value), HistoryText(s.history))
  }

  /** Step 3: ask the language model for an answer; its failure is the invocation's failure. */
  function Generate(s: PipelineState, svc: Services): (r: Result<PipelineState, Thrown>)
    requires s.context.Some?
    ensures svc.llm(AnswerRequestFor(s)).Err? ==> r == Err(svc.llm(AnswerRequestFor(s)).error)
    ensures svc.llm(AnswerRequestFor(s)).Ok? ==> r == Ok(s.(answer := Some(svc.llm(AnswerRequestFor(s)).value)))
  {
    match svc.llm(AnswerRequestFor(s))
    case Err(e) => Err(e)
    case Ok(text) => Ok(s.(answer := Some(text)))
  }

  /** Step 4: the two independent verdicts on the unrefined answer. */
  function Validate(s: PipelineState, svc: Services): (r: PipelineState)
    requires s.answer.Some? && s.context.Some?
    ensures r.needsRefinement == Some(!svc.acceptable(s.answer.value, s.question))
    ensures r.needsHumanAssistance == Some(svc.needsHuman(s.question, s.context.value, s.answer.value))
    ensures r == s.(needsRefinement := r.needsRefinement, needsHumanAssistance := r.needsHumanAssistance)
  {
    s.(needsRefinement := Some(!svc.acceptable(s.answer.value, s.question)),
       needsHumanAssistance := Some(svc.needsHuman(s.question, s.context.value, s.answer.value)))
  }

  /** The request that `refine` sends to the language model. */
  function RefineRequestFor(s: PipelineState): LlmRequest
    requires s.context.Some? && s.answer.Some?
  {
    RefineRequest(s.question, RefinementContext(s.context.value), s.answer.value)
  }

  /** Step 5: without refinement the answer is copied; with it, the refined text becomes the final answer. */
  function Refine(s: PipelineState, svc: Services): (r: Result<PipelineState, Thrown>)
    requires s.needsRefinement.Some? && s.answer.Some? && s.context.Some?
    ensures !s.needsRefinement.value ==> r == Ok(s.(finalAnswer := s.answer))
    ensures s.needsRefinement.value && svc.llm(RefineRequestFor(s)).Err? ==> r == Err(svc.llm(RefineRequestFor(s)).error)
    ensures s.needsRefinement.value && svc.llm(RefineRequestFor(s)).Ok? ==>
              r == Ok(s.(finalAnswer := Some(svc.llm(RefineRequestFor(s)).value)))
  {
    if !s.needsRefinement.value then Ok(s.(finalAnswer := s.answer))
    else
      match svc.llm(RefineRequestFor(s))
      case Err(e) => Err(e)
      case Ok(text) => Ok(s.(finalAnswer := Some(text)))
  }

  /** Step 6: a needed handoff replaces the answer; otherwise the final answer is `finalAnswer || answer`. */
  function HandleHumanAssistance(s: PipelineState, svc: Services): (r: PipelineState)
    requires s.needsHumanAssistance.Some? && s.answer.Some?
    ensures s.needsHumanAssistance.value ==> r.finalAnswer == Some(svc.handoff(s.question))
    ensures !s.needsHumanAssistance.value ==> r.finalAnswer == Some(StringOr(s.finalAnswer, s.answer.value))
    ensures r == s.(finalAnswer := r.finalAnswer)
  {
    if !s.needsHumanAssistance.value then s.(finalAnswer := Some(StringOr(s.finalAnswer, s.answer.value)))
    else s.(finalAnswer := Some(svc.handoff(s.question)))
  }

  // ---------------------------------------------------------------- graph

  datatype Node = StartNode | CategorizeNode | RetrieveNode | GenerateNode | ValidateNode
                | RefineNode | HumanAssistanceNode | EndNode

  /** The distance of a node from the end of the graph; every edge decreases it. */
  function Rank(n: Node): nat
  {
    match n
    case StartNode => 7
    case CategorizeNode => 6
    case RetrieveNode => 5
    case GenerateNode => 4
    case ValidateNode => 3
    case RefineNode => 2
    case HumanAssistanceNode => 1
    case EndNode => 0
  }

  /** The channels every node can rely on when it is reached: those its predecessors write. */
  predicate Ready(n: Node, s: PipelineState)
  {
    && (Rank(n) <= 5 ==> s.category.Some?)
    && (Rank(n) <= 4 ==> s.context.Some? && s.contextRelevance.Some?)
    && (Rank(n) <= 3 ==> s.answer.Some?)
    && (Rank(n) <= 2 ==> s.needsRefinement.Some? && s.needsHumanAssistance.Some?)
    && (Rank(n) == 0 ==> s.finalAnswer.Some?)
  }

  /** The conditional edge out of validate. */
  function ShouldRefine(s: PipelineState): (n: Node)
    requires s.needsRefinement.Some?
    ensures n == RefineNode <==> s.needsRefinement.value
    ensures n == RefineNode || n == HumanAssistanceNode
  {
    if s.needsRefinement.value then RefineNode else HumanAssistanceNode
  }

  /** The graph's edge table, evaluated on the state the node has just produced. */
  function Next(n: Node, s: PipelineState): (m: Node)
    requires n == ValidateNode ==> s.needsRefinement.Some?
    ensures n != EndNode ==> Rank(m) < Rank(n)
  {
    match n
    case StartNode => CategorizeNode
    case CategorizeNode => RetrieveNode
    case RetrieveNode => GenerateNode
    case GenerateNode => ValidateNode
    case ValidateNode => ShouldRefine(s)
    case RefineNode => HumanAssistanceNode
    case HumanAssistanceNode => EndNode
    case EndNode => EndNode
  }

  /** Runs one node. */
  function Step(n: Node, s: PipelineState, svc: Services): (r: Result<PipelineState, Thrown>)
    requires Ready(n, s) && n != EndNode
    ensures r.Ok? && n == ValidateNode ==> r.value.needsRefinement.Some?
    ensures r.Ok? ==> Ready(Next(n, r.value), r.value)
  {
    match n
    case StartNode => Ok(s)
    case CategorizeNode => Ok(Categorize(s, svc))
    case RetrieveNode => Ok(Retrieve(s, svc))
    case GenerateNode => Generate(s, svc)
    case ValidateNode => Ok(Validate(s, svc))
    case RefineNode => Refine(s, svc)
    case HumanAssistanceNode => Ok(HandleHumanAssistance(s, svc))
  }

  /** Runs the graph from node `n` to the end, stopping at the first node that fails. */
  function RunFrom(n: Node, s: PipelineState, svc: Services): (r: Result<PipelineState, Thrown>)
    requires Ready(n, s)
    ensures r.Ok? ==> Ready(EndNode, r.value)
    decreases Rank(n)
  {
    if n == EndNode then Ok(s)
    else
      match Step(n, s, svc)
      case Err(e) => Err(e)
      case Ok(s') => RunFrom(Next(n, s'), s', svc)
  }

  /** The nodes executed, in order, when the graph runs from `n`, up to and including a node that fails. */
  function TraceFrom(n: Node, s: PipelineState, svc: Services): seq<Node>
    requires Ready(n, s)
    decreases Rank(n)
  {
    if n == EndNode then [EndNode]
    else
      match Step(n, s, svc)
      case Err(_) => [n]
      case Ok(s') => [n] + TraceFrom(Next(n, s'), s', svc)
  }

  /** `graph.invoke({question, history, sessionId})`. */
  function Invoke(svc: Services, question: string, history: seq<Sessions.Message>, sessionId: string): (r: Result<PipelineState, Thrown>)
    ensures r.Ok? ==> r.value.finalAnswer.Some?
  {
    RunFrom(StartNode, Initial(question, history, sessionId), svc)
  }

  function Trace(svc: Services, question: string, history: seq<Sessions.Message>, sessionId: string): seq<Node>
  {
    TraceFrom(StartNode, Initial(question, history, sessionId), svc)
  }

  /** Along any run the nodes strictly descend in rank, so no node is visited twice and every run ends. */
  lemma {:induction false} TraceDescends(n: Node, s: PipelineState, svc: Services)
    requires Ready(n, s)
    ensures var t := TraceFrom(n, s, svc);
            |t| > 0 && t[0] == n &&
            forall i, j :: 0 <= i < j < |t| ==> Rank(t[i]) > Rank(t[j])
    decreases Rank(n)
  {
    if n != EndNode {
      match Step(n, s, svc)
      case Err(_) =>
      case Ok(s') =>
        TraceDescends(Next(n, s'), s', svc);
        var rest := TraceFrom(Next(n, s'), s', svc);
        assert TraceFrom(n, s, svc) == [n] + rest;
        PrependHigherRank(n, rest);
    }
  }

  /** A node ranked above the head of a rank-descending trace may go in front of it. */
  lemma PrependHigherRank(n: Node, rest: seq<Node>)
    requires |rest| > 0 && Rank(n) > Rank(rest[0])
    requires forall i, j :: 0 <= i < j < |rest| ==> Rank(rest[i]) > Rank(rest[j])
    ensures forall i, j :: 0 <= i < j < |[n] + rest| ==> Rank(([n] + rest)[i]) > Rank(([n] + rest)[j])
  {
    var t := [n] + rest;
    forall i, j | 0 <= i < j < |t|
      ensures Rank(t[i]) > Rank(t[j])
    {
      assert t[j] == rest[j - 1];
      if i > 0 {
        assert t[i] == rest[i - 1];
      } else if j > 1 {
        assert Rank(rest[0]) > Rank(rest[j - 1]);
      }
    }
  }

  /** Every invocation visits each node at most once. */
  lemma VisitsEachNodeAtMostOnce(svc: Services, question: string, history: seq<Sessions.Message>, sessionId: string)
    ensures var t := Trace(svc, question, history, sessionId);
            |t| > 0 && t[0] == StartNode && forall i, j :: 0 <= i < j < |t| ==> t[i] != t[j]
  {
    TraceDescends(StartNode, Initial(question, history, sessionId), svc);
  }

  // ---------------------------------------------------------------- what an invocation computes

  /** The state after categorize, retrieve and generate, or generate's failure. */
  function Generated(svc: Services, question: string, history: seq<Sessions.Message>, sessionId: string): Result<PipelineState, Thrown>
  {
    Generate(Retrieve(Categorize(Initial(question, history, sessionId), svc), svc), svc)
  }

  /** What the graph does once generate has succeeded: validate, refine exactly when asked to, then handle human assistance. */
  function Finish(s: PipelineState, svc: Services): Result<PipelineState, Thrown>
    requires s.answer.Some? && s.context.Some?
  {
    var v := Validate(s, svc);
    if v.needsRefinement.value then
      match Refine(v, svc)
      case Err(e) => Err(e)
      case Ok(r) => Ok(HandleHumanAssistance(r, svc))
    else Ok(HandleHumanAssistance(v, svc))
  }

  /** The nodes run once generate has succeeded. */
  function FinishTrace(s: PipelineState, svc: Services): seq<Node>
    requires s.answer.Some? && s.context.Some?
  {
    var v := Validate(s, svc);
    if v.needsRefinement.value then
      [ValidateNode, RefineNode] + (if Refine(v, svc).Err? then [] else [HumanAssistanceNode, EndNode])
    else [ValidateNode, HumanAssistanceNode, EndNode]
  }

  lemma RunFromValidate(s: PipelineState, svc: Services)
    requires Ready(ValidateNode, s)
    ensures RunFrom(ValidateNode, s, svc) == Finish(s, svc)
  {
    var v := Validate(s, svc);
    assert RunFrom(ValidateNode, s, svc) == RunFrom(ShouldRefine(v), v, svc);
    if v.needsRefinement.value {
      var rf := Refine(v, svc);
      if rf.Ok? {
        var h := HandleHumanAssistance(rf.value, svc);
        assert RunFrom(RefineNode, v, svc) == RunFrom(HumanAssistanceNode, rf.value, svc) == RunFrom(EndNode, h, svc);
      }
    } else {
      var h := HandleHumanAssistance(v, svc);
      assert RunFrom(HumanAssistanceNode, v, svc) == RunFrom(EndNode, h, svc);
    }
  }

  lemma TraceFromValidate(s: PipelineState, svc: Services)
    requires Ready(ValidateNode, s)
    ensures TraceFrom(ValidateNode, s, svc) == FinishTrace(s, svc)
  {
    var v := Validate(s, svc);
    assert TraceFrom(ValidateNode, s, svc) == [ValidateNode] + TraceFrom(ShouldRefine(v), v, svc);
    if v.needsRefinement.value {
      var rf := Refine(v, svc);
      if rf.Ok? {
        var h := HandleHumanAssistance(rf.value, svc);
        assert TraceFrom(RefineNode, v, svc) == [RefineNode] + TraceFrom(HumanAssistanceNode, rf.value, svc);
        assert TraceFrom(HumanAssistanceNode, rf.value, svc) == [HumanAssistanceNode] + TraceFrom(EndNode, h, svc);
      }
    } else {
      var h := HandleHumanAssistance(v, svc);
      assert TraceFrom(HumanAssistanceNode, v, svc) == [HumanAssistanceNode] + TraceFrom(EndNode, h, svc);
    }
  }

  /** The graph run in straight-line form: the edge table unrolled. */
  lemma InvokeUnrolled(svc: Services, question: string, history: seq<Sessions.Message>, sessionId: string)
    ensures var g := Generated(svc, question, history, sessionId);
            Invoke(svc, question, history, sessionId) == if g.Err? then Err(g.error) else Finish(g.value, svc)
  {
    var s0 := Initial(question, history, sessionId);
    var s1 := Categorize(s0, svc);
    var s2 := Retrieve(s1, svc);
    assert RunFrom(StartNode, s0, svc) == RunFrom(CategorizeNode, s0, svc) == RunFrom(RetrieveNode, s1, svc)
           == RunFrom(GenerateNode, s2, svc);
    var g := Generate(s2, svc);
    if g.Ok? {
      assert RunFrom(GenerateNode, s2, svc) == RunFrom(ValidateNode, g.value, svc);
      RunFromValidate(g.value, svc);
    }
  }

  /**
   * The path an invocation takes: categorize, retrieve, generate, validate, then
   * refine exactly when validate asks for it, then handleHumanAssistance; a
   * failing node ends the path.
   */
  lemma TraceUnrolled(svc: Services, question: string, history: seq<Sessions.Message>, sessionId: string)
    ensures var g := Generated(svc, question, history, sessionId);
            Trace(svc, question, history, sessionId) ==
              [StartNode, CategorizeNode, RetrieveNode, GenerateNode] + if g.Err? then [] else FinishTrace(g.value, svc)
  {
    var s2 := Retrieve(Categorize(Initial(question, history, sessionId), svc), svc);
    var g := Generate(s2, svc);
    TraceToGenerate(svc, question, history, sessionId);
    TraceFromGenerate(s2, svc);
    PrefixThenGenerate(TraceFrom(GenerateNode, s2, svc), if g.Err? then [] else FinishTrace(g.value, svc));
  }

  /** The first three nodes followed by a trace from generate. */
  lemma PrefixThenGenerate(t: seq<Node>, rest: seq<Node>)
    requires t == [GenerateNode] + rest
    ensures [StartNode, CategorizeNode, RetrieveNode] + t == [StartNode, CategorizeNode, RetrieveNode, GenerateNode] + rest
  {
  }

  /** The trace from generate: generate alone when it fails, otherwise generate then the finishing nodes. */
  lemma TraceFromGenerate(s: PipelineState, svc: Services)
    requires Ready(GenerateNode, s)
    ensures var g := Generate(s, svc);
            TraceFrom(GenerateNode, s, svc) == [GenerateNode] + if g.Err? then [] else FinishTrace(g.value, svc)
  {
    var g := Generate(s, svc);
    if g.Ok? {
      assert TraceFrom(GenerateNode, s, svc) == [GenerateNode] + TraceFrom(ValidateNode, g.value, svc);
      TraceFromValidate(g.value, svc);
    }
  }

  /** An invocation's result carries the question, history and session id it was given. */
  lemma InvokeKeepsRequest(svc: Services, question: string, history: seq<Sessions.Message>, sessionId: string)
    ensures var r := Invoke(svc, question, history, sessionId);
            r.Ok? ==> r.value.question == question && r.value.history == history && r.value.sessionId == sessionId
  {
    InvokeUnrolled(svc, question, history, sessionId);
    var g := Generated(svc, question, history, sessionId);
    if g.Ok? {
      FinishKeepsRequest(g.value, svc);
    }
  }

  /** The finishing nodes leave the request fields alone. */
  lemma FinishKeepsRequest(s: PipelineState, svc: Services)
    requires s.answer.Some? && s.context.Some?
    ensures var f := Finish(s, svc);
            f.Ok? ==> f.value.question == s.question && f.value.history == s.history && f.value.sessionId == s.sessionId
  {
  }

  /** The first three steps of every trace. */
  lemma TraceToGenerate(svc: Services, question: string, history: seq<Sessions.Message>, sessionId: string)
    ensures Ready(GenerateNode, Retrieve(Categorize(Initial(question, history, sessionId), svc), svc))
    ensures var s2 := Retrieve(Categorize(Initial(question, history, sessionId), svc), svc);
            Trace(svc, question, history, sessionId) ==
              [StartNode, CategorizeNode, RetrieveNode] + TraceFrom(GenerateNode, s2, svc)
  {
    var s0 := Initial(question, history, sessionId);
    var s1 := Categorize(s0, svc);
    var s2 := Retrieve(s1, svc);
    assert TraceFrom(StartNode, s0, svc) == [StartNode] + TraceFrom(CategorizeNode, s0, svc);
    assert TraceFrom(CategorizeNode, s0, svc) == [CategorizeNode] + TraceFrom(RetrieveNode, s1, svc);
    assert TraceFrom(RetrieveNode, s1, svc) == [RetrieveNode] + TraceFrom(GenerateNode, s2, svc);
  }

  /**
   * What an invocation computes, stated without the graph: the question's
   * category, the selected context and its score, the generated answer, the two
   * verdicts on it, and the final answer (the handoff message when human help is
   * needed, even after refinement; otherwise the refined text when refinement ran
   * and gave a non-empty text, else the raw answer). A failing model call in
   * generate, or in refine when refine runs, fails the invocation with its error.
   */
  lemma {:induction false} InvokeOutcome(svc: Services, question: string, history: seq<Sessions.Message>, sessionId: string)
    ensures var category := svc.classify(question);
            var ctx := SelectedContext(svc, question, category);
            var generated := svc.llm(AnswerRequest(ChooseTemplate(history), question, FormatContext(ctx), HistoryText(history)));
            var r := Invoke(svc, question, history, sessionId);
            && (generated.Err? ==> r == Err(generated.error))
            && (generated.Ok? ==>
                  var answer := generated.value;
                  var refine := !svc.acceptable(answer, question);
                  var human := svc.needsHuman(question, ctx, answer);
                  var refined := svc.llm(RefineRequest(question, RefinementContext(ctx), answer));
                  && (refine && refined.Err? ==> r == Err(refined.error))
                  && (!refine || refined.Ok? ==>
                        r == Ok(PipelineState(question, history, sessionId, Some(category), Some(ctx),
                                              Some(svc.relevance(ctx, question)), Some(answer), Some(refine), Some(human),
                                              Some(if human then svc.handoff(question)
                                                   else if refine then StringOr(Some(refined.value), answer)
                                                   else answer)))))
  {
    InvokeUnrolled(svc, question, history, sessionId);
    var s0 := Initial(question, history, sessionId);
    var s2 := Retrieve(Categorize(s0, svc), svc);
    assert s2.context == Some(SelectedContext(svc, question, svc.classify(question)));
  }

  /** Human escalation takes priority: whenever it is needed the final answer is the handoff message, refined or not. */
  lemma HandoffWins(svc: Services, question: string, history: seq<Sessions.Message>, sessionId: string)
    requires Invoke(svc, question, history, sessionId).Ok?
    requires Invoke(svc, question, history, sessionId).value.needsHumanAssistance == Some(true)
    ensures Invoke(svc, question, history, sessionId).value.finalAnswer == Some(svc.handoff(question))
  {
    InvokeOutcome(svc, question, history, sessionId);
  }

  /** Without escalation the final answer is the refined text when refinement ran and produced one, else the answer. */
  lemma FinalAnswerWithoutHandoff(svc: Services, question: string, history: seq<Sessions.Message>, sessionId: string)
    requires Invoke(svc, question, history, sessionId).Ok?
    requires Invoke(svc, question, history, sessionId).value.needsHumanAssistance == Some(false)
    ensures var s := Invoke(svc, question, history, sessionId).value;
            && s.answer.Some?
            && (s.needsRefinement == Some(false) ==> s.finalAnswer == s.answer)
            && (s.needsRefinement == Some(true) ==>
                  var refined := svc.llm(RefineRequest(question, RefinementContext(s.context.value), s.answer.value));
                  refined.Ok? && s.finalAnswer == Some(StringOr(Some(refined.value), s.answer.value)))
  {
    InvokeOutcome(svc, question, history, sessionId);
  }

  /** When the vector search fails the pipeline carries on with no candidates. */
  lemma SearchFailureDegrades(svc: Services, question: string, history: seq<Sessions.Message>, sessionId: string)
    requires svc.search(question, SearchCandidates).None?
    requires Invoke(svc, question, history, sessionId).Ok?
    ensures Invoke(svc, question, history, sessionId).value.context
            == Some(SelectTop(svc.rerank([], question)))
  {
    InvokeOutcome(svc, question, history, sessionId);
  }
}
