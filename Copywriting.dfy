/** The "DocumentationGeneration" process: gather product information,
    generate documentation from it, proofread it, and either publish it or
    send the proofreader's suggestions back for a rewrite, as often as the
    proofreader rejects.

    The runtime that delivers events is library code; `Run` is a driver
    defined here under the assumption that each event is delivered, in
    order, to the one target its trigger has in the edge table, and that a
    target declared without a function or parameter name reaches the target
    step's only function through its only data parameter. Replies of the
    chat service and verdicts of the proofreader come from oracles indexed by
    call number, and `fuel` bounds the number of deliveries, since nothing in
    the process bounds the reject-and-rewrite cycle. */
module Copywriting {
  import opened Text
  import opened Payload
  import opened Routing
  import opened Conversation

  /** The four steps, named as `main` names them when it adds them. */
  datatype DocStep = InfoGathering | DocsGeneration | DocsProofread | DocsPublish

  /** The names the process gives its input event, the step functions, the
      events they emit and the parameters that receive payloads. */
  datatype Name =
    | StartEvent
    | GatherFunction | GenerateFunction | ApplyFunction | ProofreadFunction | PublishFunction
    | GeneratedEvent | ApprovedEvent | RejectedEvent
    | ProductNameParameter | ProductInfoParameter | DocsParameter | RejectedDocsInfoParameter

  /** The string each name stands for. */
  function NameText(n: Name): string {
    match n
    case StartEvent => "Start"
    case GatherFunction => "gather_product_information"
    case GenerateFunction => "generate_documentation"
    case ApplyFunction => "apply_suggestions"
    case ProofreadFunction => "proofread_documentation"
    case PublishFunction => "publish_documentation"
    case GeneratedEvent => "documentation_generated"
    case ApprovedEvent => "documentation_approved"
    case RejectedEvent => "documentation_rejected"
    case ProductNameParameter => "product_name"
    case ProductInfoParameter => "product_info"
    case DocsParameter => "docs"
    case RejectedDocsInfoParameter => "rejected_docs_info"
  }

  /** Distinct names stand for distinct strings, so routing by name is
      routing by the strings. */
  lemma NameTextInjective(a: Name, b: Name)
    requires NameText(a) == NameText(b)
    ensures a == b
  {
  }

  /** The fixed GlowBrew description, the generator's system prompt and the
      proofreader's system prompt; their texts are not part of this model. */
  const ProductDescription: string
  const GenerateSystemPrompt: string
  const ProofreadSystemPrompt: string

  /** `gather_product_information(product_name)`: the same description for
      every product name. */
  function GatherProductInformation(productName: string): (description: string)
    ensures description == ProductDescription
  {
    ProductDescription
  }

  lemma GatherIgnoresName(a: string, b: string)
    ensures GatherProductInformation(a) == GatherProductInformation(b)
  {
  }

  const ProductHeader: string := "Product Information:\n"

  /** The user message `generate_documentation` adds. */
  function ProductMessage(productInfo: string): string {
    ProductHeader + productInfo
  }

  /** The product information can be read back from the message, after the header. */
  lemma ProductMessageCarriesInfo(productInfo: string)
    ensures ProductHeader <= ProductMessage(productInfo)
    ensures ProductMessage(productInfo)[|ProductHeader|..] == productInfo
  {
  }

  const SuggestionsSeparator: string := "\n\t\t"

  const RewriteHeader: string := "Rewrite the documentation with the following suggestions:\n\n"

  /** The user message `apply_suggestions` adds. */
  function RewriteMessage(suggestions: seq<string>): string {
    RewriteHeader + Join(suggestions, SuggestionsSeparator)
  }

  /** The rewrite request is the header alone when there are no suggestions;
      otherwise the first suggestion follows the header and the last one ends
      the message. */
  lemma RewriteMessageShape(suggestions: seq<string>)
    ensures suggestions == [] ==> RewriteMessage(suggestions) == RewriteHeader
    ensures suggestions != [] ==> RewriteHeader + suggestions[0] <= RewriteMessage(suggestions)
    ensures suggestions != [] ==> var m, last := RewriteMessage(suggestions), suggestions[|suggestions| - 1];
              |last| <= |m| && m[|m| - |last|..] == last
  {
    var joined := Join(suggestions, SuggestionsSeparator);
    JoinEnds(suggestions, SuggestionsSeparator);
    if suggestions != [] {
      var m, last := RewriteMessage(suggestions), suggestions[|suggestions| - 1];
      assert m == RewriteHeader + joined;
      assert m[|m| - |last|..] == joined[|joined| - |last|..];
    }
  }

  /** `rejected_docs_info.get("suggestions", [])` as `join` iterates it: a
      missing key is an empty list, a string is its characters, and an empty
      list or dict of any kind has nothing to join. Any other value is
      reported as a type error. */
  function SuggestionsOf(info: Record): (r: Result<seq<string>>)
    ensures "suggestions" !in info ==> r == Ok([])
    ensures "suggestions" in info && info["suggestions"].StrList? ==> r == Ok(info["suggestions"].items)
    ensures "suggestions" in info && info["suggestions"] in {Results([]), Dict(map[])} ==> r == Ok([])
    ensures r.Err? <==> "suggestions" in info && !info["suggestions"].StrList? && !info["suggestions"].Str?
                        && info["suggestions"] != Results([]) && info["suggestions"] != Dict(map[])
  {
    match Get(info, "suggestions", StrList([]))
    case StrList(items) => Ok(items)
    case Str(s) => Ok(seq(|s|, i requires 0 <= i < |s| => [s[i]]))
    case Results(pairs) => if pairs == [] then Ok([]) else Err(TypeError("suggestions"))
    case Dict(fields) => if fields == map[] then Ok([]) else Err(TypeError("suggestions"))
    case Null => Err(TypeError("suggestions"))
  }

  /** A string given as the suggestions is joined character by character. */
  lemma StringSuggestionsJoinChars(info: Record, s: string)
    requires "suggestions" in info && info["suggestions"] == Str(s)
    ensures SuggestionsOf(info).Ok?
    ensures |SuggestionsOf(info).value| == |s|
    ensures forall i :: 0 <= i < |s| ==> SuggestionsOf(info).value[i] == [s[i]]
  {
  }

  /** The generator step. Its state is an optional chat history, which the
      runtime keeps between calls. */
  class GenerateDocumentationStep {
    var chatHistory: Option<ChatHistory>

    /** `GeneratedDocumentationState()`: no history yet. */
    constructor ()
      ensures chatHistory == None
    {
      chatHistory := None;
    }

    /** `activate(state)`: take over the persisted history, and create one
        holding only the system prompt when there is none. */
    method Activate(seed: Option<ChatHistory>)
      modifies this
      ensures seed.Some? ==> chatHistory == seed
      ensures seed.None? ==> chatHistory == Some(Seeded(GenerateSystemPrompt))
    {
      chatHistory := seed;
      if chatHistory.None? {
        chatHistory := Some(Seeded(GenerateSystemPrompt));
      }
    }

    /** `generate_documentation(product_info)`: one user message more, and
        exactly one `documentation_generated` event carrying the reply of the
        chat service (`reply`) to the grown history. */
    method GenerateDocumentation(productInfo: string, reply: string) returns (emitted: seq<Emission<Name>>)
      requires chatHistory.Some?
      modifies this
      ensures chatHistory == Some(AddUserMessage(old(chatHistory.value), ProductMessage(productInfo)))
      ensures emitted == [Emission(GeneratedEvent, Str(reply))]
    {
      chatHistory := Some(AddUserMessage(chatHistory.value, ProductMessage(productInfo)));
      emitted := [Emission(GeneratedEvent, Str(reply))];
    }

    /** `apply_suggestions(rejected_docs_info)`: one user message more, asking
        for a rewrite with the suggestions, and exactly one
        `documentation_generated` event carrying the reply. Suggestions of
        the wrong kind raise before the history changes. */
    method ApplySuggestions(rejectedDocsInfo: Record, reply: string) returns (r: Result<seq<Emission<Name>>>)
      requires chatHistory.Some?
      modifies this
      ensures SuggestionsOf(rejectedDocsInfo).Ok? ==>
                && chatHistory == Some(AddUserMessage(old(chatHistory.value), RewriteMessage(SuggestionsOf(rejectedDocsInfo).value)))
                && r == Ok([Emission(GeneratedEvent, Str(reply))])
      ensures SuggestionsOf(rejectedDocsInfo).Err? ==>
                chatHistory == old(chatHistory) && r == Err(SuggestionsOf(rejectedDocsInfo).error)
    {
      var suggestions := SuggestionsOf(rejectedDocsInfo);
      if suggestions.Err? {
        return Err(suggestions.error);
      }
      chatHistory := Some(AddUserMessage(chatHistory.value, RewriteMessage(suggestions.value)));
      r := Ok([Emission(GeneratedEvent, Str(reply))]);
    }
  }

  /** `ProofreadingResponse`: the proofreader's structured verdict. */
  datatype ProofreadingResponse = ProofreadingResponse(meetsExpectations: bool, explanation: string, suggestions: seq<string>)

  /** The data of `documentation_rejected`: exactly the explanation and the suggestions. */
  function RejectionInfo(verdict: ProofreadingResponse): (info: Record)
    ensures info.Keys == {"explanation", "suggestions"}
    ensures info["explanation"] == Str(verdict.explanation) && info["suggestions"] == StrList(verdict.suggestions)
  {
    map["explanation" := Str(verdict.explanation), "suggestions" := StrList(verdict.suggestions)]
  }

  /** The suggestions of a rejection reach `apply_suggestions` as they were. */
  lemma RejectionCarriesSuggestions(verdict: ProofreadingResponse)
    ensures SuggestionsOf(RejectionInfo(verdict)) == Ok(verdict.suggestions)
  {
  }

  /** The one event a proofreading emits for `docs` under `verdict`. */
  function VerdictEmission(docs: string, verdict: ProofreadingResponse): Emission<Name> {
    if verdict.meetsExpectations then Emission(ApprovedEvent, Str(docs))
    else Emission(RejectedEvent, Dict(RejectionInfo(verdict)))
  }

  /** The verdict's event is an approval exactly when the docs meet
      expectations; an approval carries the docs unchanged, and a rejection
      carries the explanation and suggestions in the form `apply_suggestions`
      reads them back. */
  lemma VerdictEmissionCarries(docs: string, verdict: ProofreadingResponse)
    ensures var e := VerdictEmission(docs, verdict);
      && (e.name == ApprovedEvent || e.name == RejectedEvent)
      && (e.name == ApprovedEvent <==> verdict.meetsExpectations)
      && (e.name == ApprovedEvent ==> e.data == Str(docs))
      && (e.name == RejectedEvent ==>
            && e.data.Dict?
            && e.data.fields["explanation"] == Str(verdict.explanation)
            && SuggestionsOf(e.data.fields) == Ok(verdict.suggestions))
  {
    RejectionCarriesSuggestions(verdict);
  }

  datatype Proofreading = Proofreading(history: ChatHistory, emitted: seq<Emission<Name>>)

  /** `proofread_documentation(docs)`: a fresh history of the system prompt
      and the docs, and exactly one event: the docs approved unchanged when
      the verdict meets expectations, the explanation and suggestions
      rejected otherwise. The step keeps nothing between calls. */
  function ProofreadDocumentation(docs: string, verdict: ProofreadingResponse): (p: Proofreading)
    ensures Entries(p.history) == [Message(System, ProofreadSystemPrompt), Message(User, docs)]
    ensures |p.emitted| == 1
    ensures p.emitted[0].name == ApprovedEvent <==> verdict.meetsExpectations
    ensures p.emitted[0].name == RejectedEvent <==> !verdict.meetsExpectations
    ensures verdict.meetsExpectations ==> p.emitted[0].data == Str(docs)
    ensures !verdict.meetsExpectations ==> p.emitted[0].data == Dict(RejectionInfo(verdict))
  {
    var history := AddUserMessage(Seeded(ProofreadSystemPrompt), docs);
    Proofreading(history, [VerdictEmission(docs, verdict)])
  }

  /** `publish_documentation(docs)` emits nothing. */
  function PublishDocumentation(docs: string): (emitted: seq<Emission<Name>>)
    ensures emitted == []
  {
    []
  }

  /** The edges `main` declares. */
  const DocEdges: map<Trigger<DocStep, Name>, Target<DocStep, Name>> := map[
    Input(StartEvent) := Target(InfoGathering, GatherFunction, ProductNameParameter),
    FunctionResult(InfoGathering, GatherFunction) := Target(DocsGeneration, GenerateFunction, ProductInfoParameter),
    Emitted(DocsGeneration, GeneratedEvent) := Target(DocsProofread, ProofreadFunction, DocsParameter),
    Emitted(DocsProofread, RejectedEvent) := Target(DocsGeneration, ApplyFunction, RejectedDocsInfoParameter),
    Emitted(DocsProofread, ApprovedEvent) := Target(DocsPublish, PublishFunction, DocsParameter)
  ]

  /** The kernel functions each step class exposes. */
  function Functions(s: DocStep): set<Name> {
    match s
    case InfoGathering => {GatherFunction}
    case DocsGeneration => {GenerateFunction, ApplyFunction}
    case DocsProofread => {ProofreadFunction}
    case DocsPublish => {PublishFunction}
  }

  /** The events each step class emits through its context. */
  function Emits(s: DocStep): set<Name> {
    match s
    case InfoGathering => {}
    case DocsGeneration => {GeneratedEvent}
    case DocsProofread => {ApprovedEvent, RejectedEvent}
    case DocsPublish => {}
  }

  /** The parameter through which each function receives an event's data. */
  function DataParameterOf(f: Name): Name {
    match f
    case GatherFunction => ProductNameParameter
    case GenerateFunction => ProductInfoParameter
    case ApplyFunction => RejectedDocsInfoParameter
    case _ => DocsParameter
  }

  /** Every edge calls a function its target step has, through that
      function's data parameter. */
  lemma DocEdgesTargetsFit()
    ensures forall t :: t in DocEdges ==>
              DocEdges[t].functionName in Functions(DocEdges[t].step)
              && DocEdges[t].parameter == DataParameterOf(DocEdges[t].functionName)
  {
  }

  /** Every edge starts from a function its source step has or from an event
      that step emits, and every event a step emits has an edge. */
  lemma DocEdgesSourcesFit()
    ensures forall t :: t in DocEdges && t.FunctionResult? ==> t.functionName in Functions(t.source)
    ensures forall t :: t in DocEdges && t.Emitted? ==> t.event in Emits(t.source)
    ensures forall s, n :: n in Emits(s) ==> Emitted(s, n) in DocEdges
  {
    forall s, n | n in Emits(s) ensures Emitted(s, n) in DocEdges {
      match s
      case DocsGeneration =>
      case DocsProofread =>
    }
  }

  /** A rejection goes to `apply_suggestions` with `rejected_docs_info`, and
      `generate_documentation` is reached from the gather step's result only. */
  lemma RejectionRoutesToApplySuggestions()
    ensures DocEdges[Emitted(DocsProofread, RejectedEvent)] == Target(DocsGeneration, ApplyFunction, RejectedDocsInfoParameter)
    ensures forall t :: t in DocEdges && DocEdges[t].functionName == GenerateFunction ==>
              t == FunctionResult(InfoGathering, GatherFunction)
    ensures forall t :: t in DocEdges && DocEdges[t].functionName == ApplyFunction ==>
              t == Emitted(DocsProofread, RejectedEvent)
  {
  }

  /** An approval goes to `publish_documentation` only, and nothing the
      publish step produces is routed anywhere. */
  lemma ApprovalEndsAtPublish(result: Value)
    ensures DocEdges[Emitted(DocsProofread, ApprovedEvent)] == Target(DocsPublish, PublishFunction, DocsParameter)
    ensures forall t :: t in DocEdges && DocEdges[t].step == DocsPublish ==> t == Emitted(DocsProofread, ApprovedEvent)
    ensures forall t :: t in DocEdges && !t.Input? ==> t.source != DocsPublish
    ensures Route(DocEdges, Produced(DocsPublish, PublishFunction, result, PublishDocumentation(""))) == []
  {
    var evs := Produced(DocsPublish, PublishFunction, result, []);
    assert evs == [Event(FunctionResult(DocsPublish, PublishFunction), result)];
  }

  /** The proofreader's two events are the only edges out of it, and each
      proofreading routes exactly one event onward. */
  lemma ProofreadRoutesOnce(docs: string, verdict: ProofreadingResponse, result: Value)
    ensures forall t :: t in DocEdges && !t.Input? && t.source == DocsProofread ==>
              t == Emitted(DocsProofread, ApprovedEvent) || t == Emitted(DocsProofread, RejectedEvent)
    ensures Route(DocEdges, Produced(DocsProofread, ProofreadFunction, result, [VerdictEmission(docs, verdict)]))
              == [Event(Emitted(DocsProofread, VerdictEmission(docs, verdict).name), VerdictEmission(docs, verdict).data)]
  {
    var e := VerdictEmission(docs, verdict);
    var evs := Produced(DocsProofread, ProofreadFunction, result, [e]);
    assert evs == [Event(FunctionResult(DocsProofread, ProofreadFunction), result), Event(Emitted(DocsProofread, e.name), e.data)];
    assert evs[1..][1..] == [];
  }

  /** The gather step's result is routed to the generator. */
  lemma GatherRoutesToGenerator(description: string)
    ensures Route(DocEdges, Produced(InfoGathering, GatherFunction, Str(description), []))
              == [Event(FunctionResult(InfoGathering, GatherFunction), Str(description))]
  {
    var evs := Produced(InfoGathering, GatherFunction, Str(description), []);
    assert evs == [Event(FunctionResult(InfoGathering, GatherFunction), Str(description))];
  }

  /** Each generator call routes exactly its `documentation_generated` event
      onward, to the proofreader. */
  lemma GeneratorRoutesOnce(functionName: Name, result: Value, reply: string)
    requires functionName == GenerateFunction || functionName == ApplyFunction
    ensures Route(DocEdges, Produced(DocsGeneration, functionName, result, [Emission(GeneratedEvent, Str(reply))]))
              == [Event(Emitted(DocsGeneration, GeneratedEvent), Str(reply))]
    ensures DocEdges[Emitted(DocsGeneration, GeneratedEvent)].step == DocsProofread
  {
    var evs := Produced(DocsGeneration, functionName, result, [Emission(GeneratedEvent, Str(reply))]);
    assert evs == [Event(FunctionResult(DocsGeneration, functionName), result), Event(Emitted(DocsGeneration, GeneratedEvent), Str(reply))];
    assert evs[1..][1..] == [];
  }

  /** The generator's history after the first generation and `rounds`
      rewrites. */
  function GeneratorHistory(rounds: nat, review: nat -> ProofreadingResponse): ChatHistory {
    if rounds == 0 then AddUserMessage(Seeded(GenerateSystemPrompt), ProductMessage(ProductDescription))
    else AddUserMessage(GeneratorHistory(rounds - 1, review), RewriteMessage(review(rounds - 1).suggestions))
  }

  /** The rewrite requests of the first `rounds` rejections, in order. */
  function RewriteRequests(rounds: nat, review: nat -> ProofreadingResponse): seq<Message> {
    seq(rounds, i requires 0 <= i < rounds => Message(User, RewriteMessage(review(i).suggestions)))
  }

  /** That history is the system prompt, the product information, then one
      rewrite request per rejection, in order. */
  lemma {:induction false} GeneratorHistoryShape(rounds: nat, review: nat -> ProofreadingResponse)
    ensures GeneratorHistory(rounds, review).systemMessage == Some(GenerateSystemPrompt)
    ensures GeneratorHistory(rounds, review).messages
              == [Message(User, ProductMessage(ProductDescription))] + RewriteRequests(rounds, review)
  {
    if rounds > 0 {
      GeneratorHistoryShape(rounds - 1, review);
      var m := Message(User, RewriteMessage(review(rounds - 1).suggestions));
      assert RewriteRequests(rounds, review) == RewriteRequests(rounds - 1, review) + [m];
      assert GeneratorHistory(rounds, review).messages == GeneratorHistory(rounds - 1, review).messages + [m];
    }
  }

  /** Where a run stands: before delivery of the start event, of the gather
      result, of the `round`-th generated docs, of the `round`-th verdict, or
      after publishing. */
  datatype Stage = Starting | Gathered | Generated(round: nat) | Reviewed(round: nat) | Finished(round: nat)

  /** The queue at each stage: the one event in flight, or none. */
  function Queued(st: Stage, productName: string, llm: nat -> string, review: nat -> ProofreadingResponse): seq<Event<DocStep, Name>> {
    match st
    case Starting => [Event(Input(StartEvent), Str(productName))]
    case Gathered => [Event(FunctionResult(InfoGathering, GatherFunction), Str(ProductDescription))]
    case Generated(n) => [Event(Emitted(DocsGeneration, GeneratedEvent), Str(llm(n)))]
    case Reviewed(n) =>
      var e := VerdictEmission(llm(n), review(n));
      [Event(Emitted(DocsProofread, e.name), e.data)]
    case Finished(_) => []
  }

  /** The stage after one delivery. */
  function Advance(st: Stage, review: nat -> ProofreadingResponse): Stage {
    match st
    case Starting => Gathered
    case Gathered => Generated(0)
    case Generated(n) => Reviewed(n)
    case Reviewed(n) => if review(n).meetsExpectations then Finished(n) else Generated(n + 1)
    case Finished(n) => Finished(n)
  }

  /** The generator's history at each stage. */
  function HistoryAt(st: Stage, review: nat -> ProofreadingResponse): Option<ChatHistory> {
    match st
    case Starting => Some(Seeded(GenerateSystemPrompt))
    case Gathered => Some(Seeded(GenerateSystemPrompt))
    case Generated(n) => Some(GeneratorHistory(n, review))
    case Reviewed(n) => Some(GeneratorHistory(n, review))
    case Finished(n) => Some(GeneratorHistory(n, review))
  }

  /** How many chat replies and verdicts have been consumed at each stage. */
  function RepliesAt(st: Stage): nat {
    match st
    case Starting => 0
    case Gathered => 0
    case Generated(n) => n + 1
    case Reviewed(n) => n + 1
    case Finished(n) => n + 1
  }

  function VerdictsAt(st: Stage): nat {
    match st
    case Starting => 0
    case Gathered => 0
    case Generated(n) => n
    case Reviewed(n) => n + 1
    case Finished(n) => n + 1
  }

  /** How many deliveries it takes to reach a stage. */
  function DeliveriesTo(st: Stage): nat {
    match st
    case Starting => 0
    case Gathered => 1
    case Generated(n) => 2 * n + 2
    case Reviewed(n) => 2 * n + 3
    case Finished(n) => 2 * n + 4
  }

  /** What the function invoked at a stage returns and emits. */
  datatype Invocation = Invocation(result: Value, emitted: seq<Emission<Name>>)

  function Expected(st: Stage, llm: nat -> string, review: nat -> ProofreadingResponse): Invocation
    requires !st.Finished?
  {
    match st
    case Starting => Invocation(Str(ProductDescription), [])
    case Gathered => Invocation(Null, [Emission(GeneratedEvent, Str(llm(0)))])
    case Generated(n) => Invocation(Null, [VerdictEmission(llm(n), review(n))])
    case Reviewed(n) =>
      if review(n).meetsExpectations then Invocation(Null, [])
      else Invocation(Null, [Emission(GeneratedEvent, Str(llm(n + 1)))])
  }

  /** The target of the event in flight at each stage. */
  function TargetAt(st: Stage, review: nat -> ProofreadingResponse): Target<DocStep, Name>
    requires !st.Finished?
  {
    match st
    case Starting => Target(InfoGathering, GatherFunction, ProductNameParameter)
    case Gathered => Target(DocsGeneration, GenerateFunction, ProductInfoParameter)
    case Generated(_) => Target(DocsProofread, ProofreadFunction, DocsParameter)
    case Reviewed(n) =>
      if review(n).meetsExpectations then Target(DocsPublish, PublishFunction, DocsParameter)
      else Target(DocsGeneration, ApplyFunction, RejectedDocsInfoParameter)
  }

  /** Whether the event in flight at `st` has `TargetAt(st)` as its edge, and
      routing what that target produces gives the queue of the next stage. */
  predicate RoutesToNext(st: Stage, productName: string, llm: nat -> string, review: nat -> ProofreadingResponse)
    requires !st.Finished?
  {
    var ev := Queued(st, productName, llm, review)[0];
    var target := TargetAt(st, review);
    var inv := Expected(st, llm, review);
    && ev.trigger in DocEdges
    && DocEdges[ev.trigger] == target
    && Route(DocEdges, Produced(target.step, target.functionName, inv.result, inv.emitted))
         == Queued(Advance(st, review), productName, llm, review)
  }

  lemma StartRoutesToNext(productName: string, llm: nat -> string, review: nat -> ProofreadingResponse)
    ensures RoutesToNext(Starting, productName, llm, review)
  {
    assert DocEdges[Input(StartEvent)] == Target(InfoGathering, GatherFunction, ProductNameParameter);
    GatherRoutesToGenerator(ProductDescription);
  }

  lemma GatheredRoutesToNext(productName: string, llm: nat -> string, review: nat -> ProofreadingResponse)
    ensures RoutesToNext(Gathered, productName, llm, review)
  {
    assert DocEdges[FunctionResult(InfoGathering, GatherFunction)] == Target(DocsGeneration, GenerateFunction, ProductInfoParameter);
    GeneratorRoutesOnce(GenerateFunction, Null, llm(0));
  }

  lemma GeneratedRoutesToNext(n: nat, productName: string, llm: nat -> string, review: nat -> ProofreadingResponse)
    ensures RoutesToNext(Generated(n), productName, llm, review)
  {
    assert DocEdges[Emitted(DocsGeneration, GeneratedEvent)] == Target(DocsProofread, ProofreadFunction, DocsParameter);
    ProofreadRoutesOnce(llm(n), review(n), Null);
  }

  lemma ReviewedRoutesToNext(n: nat, productName: string, llm: nat -> string, review: nat -> ProofreadingResponse)
    ensures RoutesToNext(Reviewed(n), productName, llm, review)
  {
    if review(n).meetsExpectations {
      assert Queued(Reviewed(n), productName, llm, review)[0].trigger == Emitted(DocsProofread, ApprovedEvent);
      assert DocEdges[Emitted(DocsProofread, ApprovedEvent)] == Target(DocsPublish, PublishFunction, DocsParameter);
      ApprovalEndsAtPublish(Null);
    } else {
      assert Queued(Reviewed(n), productName, llm, review)[0].trigger == Emitted(DocsProofread, RejectedEvent);
      assert DocEdges[Emitted(DocsProofread, RejectedEvent)] == Target(DocsGeneration, ApplyFunction, RejectedDocsInfoParameter);
      GeneratorRoutesOnce(ApplyFunction, Null, llm(n + 1));
    }
  }

  /** At every stage before the end, the event in flight has an edge and
      what its target produces is routed into the next stage's queue. */
  lemma NextQueued(st: Stage, productName: string, llm: nat -> string, review: nat -> ProofreadingResponse)
    requires !st.Finished?
    ensures RoutesToNext(st, productName, llm, review)
  {
    match st
    case Starting => StartRoutesToNext(productName, llm, review);
    case Gathered => GatheredRoutesToNext(productName, llm, review);
    case Generated(n) => GeneratedRoutesToNext(n, productName, llm, review);
    case Reviewed(n) => ReviewedRoutesToNext(n, productName, llm, review);
  }

  /** The generator's history and the numbers of chat replies and verdicts
      consumed are those of stage `st`. */
  predicate GeneratorAt(st: Stage, review: nat -> ProofreadingResponse, history: Option<ChatHistory>, replies: nat, verdicts: nat) {
    history == HistoryAt(st, review) && replies == RepliesAt(st) && verdicts == VerdictsAt(st)
  }

  /** The docs a delivery at `st` publishes. */
  function PublishedAt(st: Stage, llm: nat -> string, review: nat -> ProofreadingResponse): Option<string> {
    if st.Reviewed? && review(st.round).meetsExpectations then Some(llm(st.round)) else None
  }

  /** What an invocation at `st` starts from: the payload of the event in
      flight, and the generator as it is at `st`. */
  predicate Ready(st: Stage, productName: string, llm: nat -> string, review: nat -> ProofreadingResponse,
                  payload: Value, history: Option<ChatHistory>, replies: nat, verdicts: nat) {
    && !st.Finished?
    && payload == Queued(st, productName, llm, review)[0].payload
    && GeneratorAt(st, review, history, replies, verdicts)
  }

  /** What an invocation at `st` leaves: the expected result and emissions,
      the generator as it is at the next stage, and the docs published. */
  predicate Done(st: Stage, llm: nat -> string, review: nat -> ProofreadingResponse, inv: Invocation,
                 history: Option<ChatHistory>, replies: nat, verdicts: nat, published: Option<string>)
    requires !st.Finished?
  {
    && inv == Expected(st, llm, review)
    && GeneratorAt(Advance(st, review), review, history, replies, verdicts)
    && published == PublishedAt(st, llm, review)
  }

  /** `gather_product_information` on the start event. */
  method InvokeGather(gen: GenerateDocumentationStep, payload: Value, replies: nat, verdicts: nat,
                      llm: nat -> string, review: nat -> ProofreadingResponse, ghost productName: string)
    returns (inv: Invocation, replies': nat, verdicts': nat, published: Option<string>)
    requires Ready(Starting, productName, llm, review, payload, gen.chatHistory, replies, verdicts)
    ensures Done(Starting, llm, review, inv, gen.chatHistory, replies', verdicts', published)
  {
    inv := Invocation(Str(GatherProductInformation(payload.s)), []);
    replies', verdicts', published := replies, verdicts, None;
  }

  /** `generate_documentation` on the gathered information: the seeded
      history gains the product message. */
  method InvokeGenerate(gen: GenerateDocumentationStep, payload: Value, replies: nat, verdicts: nat,
                        llm: nat -> string, review: nat -> ProofreadingResponse, ghost productName: string)
    returns (inv: Invocation, replies': nat, verdicts': nat, published: Option<string>)
    requires Ready(Gathered, productName, llm, review, payload, gen.chatHistory, replies, verdicts)
    modifies gen
    ensures Done(Gathered, llm, review, inv, gen.chatHistory, replies', verdicts', published)
  {
    var emitted := gen.GenerateDocumentation(payload.s, llm(replies));
    inv := Invocation(Null, emitted);
    replies', verdicts', published := replies + 1, verdicts, None;
  }

  /** `apply_suggestions` on the `n`-th rejection: the history gains the
      rewrite request for its suggestions. */
  method InvokeApply(gen: GenerateDocumentationStep, ghost n: nat, payload: Value, replies: nat, verdicts: nat,
                     llm: nat -> string, review: nat -> ProofreadingResponse, ghost productName: string)
    returns (inv: Invocation, replies': nat, verdicts': nat, published: Option<string>)
    requires !review(n).meetsExpectations
    requires Ready(Reviewed(n), productName, llm, review, payload, gen.chatHistory, replies, verdicts)
    modifies gen
    ensures Done(Reviewed(n), llm, review, inv, gen.chatHistory, replies', verdicts', published)
  {
    assert payload == Dict(RejectionInfo(review(n)));
    assert gen.chatHistory == Some(GeneratorHistory(n, review)) && replies == n + 1;
    RejectionCarriesSuggestions(review(n));
    var r := gen.ApplySuggestions(payload.fields, llm(replies));
    assert gen.chatHistory == Some(GeneratorHistory(n + 1, review));
    inv := Invocation(Null, r.value);
    replies', verdicts', published := replies + 1, verdicts, None;
    assert Advance(Reviewed(n), review) == Generated(n + 1);
  }

  /** `proofread_documentation` on the `n`-th generated docs, with the
      proofreader's verdict `review(n)`. */
  method InvokeProofread(gen: GenerateDocumentationStep, ghost n: nat, payload: Value, replies: nat, verdicts: nat,
                         llm: nat -> string, review: nat -> ProofreadingResponse, ghost productName: string)
    returns (inv: Invocation, replies': nat, verdicts': nat, published: Option<string>)
    requires Ready(Generated(n), productName, llm, review, payload, gen.chatHistory, replies, verdicts)
    ensures Done(Generated(n), llm, review, inv, gen.chatHistory, replies', verdicts', published)
  {
    assert payload == Str(llm(n)) && verdicts == n;
    var p := ProofreadDocumentation(payload.s, review(verdicts));
    assert p.emitted == [VerdictEmission(llm(n), review(n))];
    inv := Invocation(Null, p.emitted);
    replies', verdicts', published := replies, verdicts + 1, None;
  }

  /** `publish_documentation` on the approved `n`-th docs. */
  method InvokePublish(gen: GenerateDocumentationStep, ghost n: nat, payload: Value, replies: nat, verdicts: nat,
                       llm: nat -> string, review: nat -> ProofreadingResponse, ghost productName: string)
    returns (inv: Invocation, replies': nat, verdicts': nat, published: Option<string>)
    requires review(n).meetsExpectations
    requires Ready(Reviewed(n), productName, llm, review, payload, gen.chatHistory, replies, verdicts)
    ensures Done(Reviewed(n), llm, review, inv, gen.chatHistory, replies', verdicts', published)
  {
    assert payload == Str(llm(n));
    inv := Invocation(Null, PublishDocumentation(payload.s));
    replies', verdicts', published := replies, verdicts, Some(payload.s);
    assert Advance(Reviewed(n), review) == Finished(n);
  }

  /** Invoke the function the event in flight targets; the chat service's
      next reply is `llm(replies)` and the proofreader's next verdict
      `review(verdicts)`. */
  method Invoke(gen: GenerateDocumentationStep, ghost st: Stage, target: Target<DocStep, Name>, payload: Value,
                replies: nat, verdicts: nat, llm: nat -> string, review: nat -> ProofreadingResponse,
                ghost productName: string)
    returns (inv: Invocation, replies': nat, verdicts': nat, published: Option<string>)
    requires Ready(st, productName, llm, review, payload, gen.chatHistory, replies, verdicts)
    requires target == TargetAt(st, review)
    modifies gen
    ensures Done(st, llm, review, inv, gen.chatHistory, replies', verdicts', published)
  {
    match target.step {
      case InfoGathering =>
        assert st == Starting;
        inv, replies', verdicts', published := InvokeGather(gen, payload, replies, verdicts, llm, review, productName);
      case DocsGeneration =>
        if target.functionName == GenerateFunction {
          assert st == Gathered;
          inv, replies', verdicts', published := InvokeGenerate(gen, payload, replies, verdicts, llm, review, productName);
        } else {
          assert st.Reviewed? && !review(st.round).meetsExpectations;
          inv, replies', verdicts', published := InvokeApply(gen, st.round, payload, replies, verdicts, llm, review, productName);
        }
      case DocsProofread =>
        assert st.Generated?;
        inv, replies', verdicts', published := InvokeProofread(gen, st.round, payload, replies, verdicts, llm, review, productName);
      case DocsPublish =>
        assert st.Reviewed? && review(st.round).meetsExpectations;
        inv, replies', verdicts', published := InvokePublish(gen, st.round, payload, replies, verdicts, llm, review, productName);
    }
  }

  /** Proofreadings before the one in flight at `st`. */
  function RoundsBefore(st: Stage): nat {
    match st
    case Starting => 0
    case Gathered => 0
    case Generated(n) => n
    case Reviewed(n) => n
    case Finished(n) => n
  }

  /** No approval among the rounds before `st`. */
  predicate RejectedBefore(st: Stage, review: nat -> ProofreadingResponse) {
    forall i :: 0 <= i < RoundsBefore(st) ==> !review(i).meetsExpectations
  }

  /** One delivery keeps every earlier round rejected and ends exactly on an
      approval. */
  lemma AdvanceKeepsRejections(st: Stage, review: nat -> ProofreadingResponse)
    requires !st.Finished? && RejectedBefore(st, review)
    ensures RejectedBefore(Advance(st, review), review)
    ensures Advance(st, review).Finished? ==> review(Advance(st, review).round).meetsExpectations
    ensures DeliveriesTo(Advance(st, review)) == DeliveriesTo(st) + 1
  {
  }

  /** A run stopped before the end by its fuel has seen no approval it
      could have reached. */
  lemma StoppedWithoutApproval(st: Stage, review: nat -> ProofreadingResponse)
    requires !st.Finished? && RejectedBefore(st, review)
    ensures forall i: nat :: 2 * i + 4 <= DeliveriesTo(st) ==> !review(i).meetsExpectations
  {
  }

  /** Deliver the event in flight at `st` and move to the next stage. */
  method Deliver(gen: GenerateDocumentationStep, ghost st: Stage, queue: seq<Event<DocStep, Name>>,
                 replies: nat, verdicts: nat, llm: nat -> string, review: nat -> ProofreadingResponse,
                 ghost productName: string)
    returns (queue': seq<Event<DocStep, Name>>, replies': nat, verdicts': nat, published: Option<string>)
    requires !st.Finished? && queue == Queued(st, productName, llm, review)
    requires GeneratorAt(st, review, gen.chatHistory, replies, verdicts)
    modifies gen
    ensures queue' == Queued(Advance(st, review), productName, llm, review)
    ensures GeneratorAt(Advance(st, review), review, gen.chatHistory, replies', verdicts')
    ensures published == PublishedAt(st, llm, review)
  {
    NextQueued(st, productName, llm, review);
    var target := DocEdges[queue[0].trigger];
    var inv;
    inv, replies', verdicts', published := Invoke(gen, st, target, queue[0].payload, replies, verdicts, llm, review, productName);
    assert |queue| == 1;
    queue' := queue[1..] + Route(DocEdges, Produced(target.step, target.functionName, inv.result, inv.emitted));
  }

  /** How a run ends: the docs published after `rounds` rejections, or the
      fuel spent first. */
  datatype RunOutcome = Published(docs: string, rounds: nat) | OutOfFuel

  /** `main`: start the process with the product name, after the runtime
      activates the generator on its default state, and deliver at most
      `fuel` events. A run publishes the docs of the first approved round,
      every earlier round having been rejected, and it publishes whenever an
      approval falls within the fuel (round `r` needs `2 * r + 4`
      deliveries). The generator's history then holds the product
      information and one rewrite request per rejection. */
  method Run(productName: string, llm: nat -> string, review: nat -> ProofreadingResponse, fuel: nat)
    returns (outcome: RunOutcome, history: Option<ChatHistory>)
    ensures outcome.Published? ==>
              && outcome.docs == llm(outcome.rounds)
              && review(outcome.rounds).meetsExpectations
              && (forall i :: 0 <= i < outcome.rounds ==> !review(i).meetsExpectations)
              && 2 * outcome.rounds + 4 <= fuel
              && history == Some(GeneratorHistory(outcome.rounds, review))
    ensures outcome.OutOfFuel? ==> forall i: nat :: 2 * i + 4 <= fuel ==> !review(i).meetsExpectations
  {
    var gen := new GenerateDocumentationStep();
    gen.Activate(None);
    var start := Event(Input(StartEvent), Str(productName));
    assert [start][1..] == [];
    var queue := Route(DocEdges, [start]);
    assert queue == Queued(Starting, productName, llm, review);
    ghost var st := Starting;
    var replies, verdicts, deliveries := 0, 0, 0;
    var published: Option<string> := None;
    while queue != [] && deliveries < fuel
      invariant queue == Queued(st, productName, llm, review)
      invariant GeneratorAt(st, review, gen.chatHistory, replies, verdicts)
      invariant deliveries == DeliveriesTo(st) <= fuel
      invariant published == if st.Finished? then Some(llm(st.round)) else None
      invariant RejectedBefore(st, review)
      invariant st.Finished? ==> review(st.round).meetsExpectations
      decreases fuel - deliveries
    {
      var pub;
      queue, replies, verdicts, pub := Deliver(gen, st, queue, replies, verdicts, llm, review, productName);
      if pub.Some? {
        published := pub;
      }
      AdvanceKeepsRejections(st, review);
      st := Advance(st, review);
      deliveries := deliveries + 1;
    }
    if !st.Finished? {
      StoppedWithoutApproval(st, review);
    }
    history := gen.chatHistory;
    if published.Some? {
      outcome := Published(published.value, verdicts - 1);
    } else {
      outcome := OutOfFuel;
    }
  }
}
