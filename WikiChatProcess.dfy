/** The "ChatWithWikipedia" process: five steps wired into a linear chain by
    their function results, started by the input event "Start" carrying
    `{"question": question}`, and `chat`, which reads the answer and the
    context out of the last step's state.

    The runtime that delivers events is library code; `Run` is a driver
    defined here under the assumption that each event is delivered, in
    order, to the one target its trigger has in the edge table. */
module WikiChatProcess {
  import opened Text
  import opened Payload
  import opened Routing
  import opened Http
  import opened Conversation
  import opened WikiUtils
  import opened WebUtils
  import opened WikiSteps

  datatype StepName = ExtractQuery | GetWikiUrl | SearchUrl | ProcessSearchResult | AugmentedChat

  const StartEvent: string := "Start"
  const DataParameter: string := "data"

  /** The edges `_build_process` declares. */
  const WikiEdges: map<Trigger<StepName, string>, Target<StepName, string>> := map[
    Input(StartEvent) := Target(ExtractQuery, "extract_query", DataParameter),
    FunctionResult(ExtractQuery, "extract_query") := Target(GetWikiUrl, "get_urls", DataParameter),
    FunctionResult(GetWikiUrl, "get_urls") := Target(SearchUrl, "search_urls", DataParameter),
    FunctionResult(SearchUrl, "search_urls") := Target(ProcessSearchResult, "process_results", DataParameter),
    FunctionResult(ProcessSearchResult, "process_results") := Target(AugmentedChat, "generate_answer", DataParameter)
  ]

  /** The one kernel function each step exposes. */
  function FunctionOf(s: StepName): string {
    match s
    case ExtractQuery => "extract_query"
    case GetWikiUrl => "get_urls"
    case SearchUrl => "search_urls"
    case ProcessSearchResult => "process_results"
    case AugmentedChat => "generate_answer"
  }

  /** Position of a step in the chain. */
  function Position(s: StepName): nat {
    match s
    case ExtractQuery => 0
    case GetWikiUrl => 1
    case SearchUrl => 2
    case ProcessSearchResult => 3
    case AugmentedChat => 4
  }

  /** The input event "Start" goes to `extract_query`, bound to `data`. */
  lemma StartRoutesToExtractQuery()
    ensures Input(StartEvent) in WikiEdges
    ensures WikiEdges[Input(StartEvent)] == Target(ExtractQuery, "extract_query", DataParameter)
    ensures forall t :: t in WikiEdges && t.Input? ==> t == Input(StartEvent)
  {
  }

  /** Every edge binds the payload to the parameter `data`, and calls the
      function its target step exposes. */
  lemma EveryEdgeBindsData()
    ensures forall t :: t in WikiEdges ==>
              WikiEdges[t].parameter == DataParameter && WikiEdges[t].functionName == FunctionOf(WikiEdges[t].step)
  {
  }

  /** The edges form one chain: the result of each step but the last leads to
      the next step, the last step's result leads nowhere, no step emits a
      routed event, and no step is the target of two edges. */
  lemma LinearChain()
    ensures forall s :: Position(s) < 4 <==> FunctionResult(s, FunctionOf(s)) in WikiEdges
    ensures forall t :: t in WikiEdges && t.FunctionResult? ==>
              t.functionName == FunctionOf(t.source) && Position(WikiEdges[t].step) == Position(t.source) + 1
    ensures forall t :: t in WikiEdges ==> !t.Emitted?
    ensures forall t1, t2 :: t1 in WikiEdges && t2 in WikiEdges && WikiEdges[t1].step == WikiEdges[t2].step ==> t1 == t2
  {
    forall s ensures Position(s) < 4 <==> FunctionResult(s, FunctionOf(s)) in WikiEdges {
      match s
      case ExtractQuery =>
      case GetWikiUrl =>
      case SearchUrl =>
      case ProcessSearchResult =>
      case AugmentedChat =>
    }
  }

  /** `_run_process`: the data of the "Start" event. */
  function InitialPayload(question: string): (data: Record)
    ensures data.Keys == {"question"} && data["question"] == Str(question)
  {
    map["question" := Str(question)]
  }

  /** The state `AugmentedChatStep` is left in. That step is not part of this
      model: its answer and context are opaque strings computed from the
      record it receives, by the oracle `answerer`. */
  datatype AnswerState = AnswerState(answer: string, context: string)

  /** The history `extract_query` sends after the step was activated on its
      default state (an empty history). */
  function QuestionHistory(question: string): (h: ChatHistory)
    ensures Entries(h) == [Message(System, ExtractQuerySystemPrompt), Message(User, question)]
  {
    AddUserMessage(ChatHistory(Some(ExtractQuerySystemPrompt), []), question)
  }

  /** What the chain computes from the question: the extracted query is the
      stripped reply to `QuestionHistory(question)`, the URLs are looked up for
      it with the default count, and each URL is fetched with the default
      sentence count. */
  function ChainUrls(question: string, llm: ChatHistory -> string, web: Web, fuel: nat): seq<string> {
    WikiUrls(Strip(llm(QuestionHistory(question))), DefaultUrlCount, web, fuel)
  }

  function ChainResults(question: string, llm: ChatHistory -> string, web: Web, fuel: nat): seq<FetchResult> {
    FetchAll(ChainUrls(question, llm, web, fuel), DefaultSentenceCount, web)
  }

  function ChainContext(question: string, llm: ChatHistory -> string, web: Web, fuel: nat): string {
    ContextString(ChainResults(question, llm, web, fuel))
  }

  /** The records the chain passes on, each carrying the question. */
  function UrlRecord(question: string, urls: seq<string>): Record {
    map["question" := Str(question), "url_list" := StrList(urls)]
  }

  function SearchRecord(question: string, results: seq<FetchResult>): Record {
    map["question" := Str(question), "search_results" := Results(results)]
  }

  function ContextRecord(question: string, context: string): Record {
    map["question" := Str(question), "context" := Str(context)]
  }

  /** `get_urls` accepts what `extract_query` returns and passes the
      question on, with at most two URLs. */
  lemma UrlStepComposes(question: string, reply: string, web: Web, fuel: nat)
    ensures GetUrls(ExtractedRecord(question, reply), web, fuel)
              == Ok(UrlRecord(question, WikiUrls(Strip(reply), DefaultUrlCount, web, fuel)))
    ensures |WikiUrls(Strip(reply), DefaultUrlCount, web, fuel)| <= DefaultUrlCount
  {
    var q := ExtractedRecord(question, reply);
    assert "extracted_query" in q && q["extracted_query"] == Str(Strip(reply)) && "question" in q;
    assert GetUrls(q, web, fuel).value == UrlRecord(question, WikiUrls(Strip(reply), DefaultUrlCount, web, fuel));
  }

  /** `search_urls` accepts what `get_urls` returns, whatever the URLs are. */
  lemma SearchStepComposes(question: string, urls: seq<string>, web: Web)
    ensures SearchUrls(UrlRecord(question, urls), web) == Ok(SearchRecord(question, FetchAll(urls, DefaultSentenceCount, web)))
  {
    var u := UrlRecord(question, urls);
    assert "url_list" in u && u["url_list"] == StrList(urls) && "question" in u;
    assert SearchUrls(u, web).value == SearchRecord(question, FetchAll(urls, DefaultSentenceCount, web));
  }

  /** `process_results` accepts what `search_urls` returns. */
  lemma ProcessStepComposes(question: string, results: seq<FetchResult>)
    ensures ProcessedRecord(SearchRecord(question, results)) == Ok(ContextRecord(question, ContextString(results)))
  {
    var s := SearchRecord(question, results);
    assert "search_results" in s && s["search_results"] == Results(results) && "question" in s;
    assert ProcessedRecord(s).value == ContextRecord(question, ContextString(results));
  }

  /** The payload bound to `data`: only a dict is accepted. */
  function DataOf(payload: Value): Result<Record> {
    if payload.Dict? then Ok(payload.fields) else Err(TypeError(DataParameter))
  }

  function AsPayload(r: Result<Record>): Result<Value> {
    if r.Ok? then Ok(Dict(r.value)) else Err(r.error)
  }

  /** Invoke the function of `target.step` with `payload` as `data`. Only
      `extract_query` changes state (the step's history); the answering step
      leaves its answer in `answer`. */
  method Dispatch(step: ExtractQueryStep, target: Target<StepName, string>, payload: Value,
                  llm: ChatHistory -> string, web: Web, fuel: nat, answerer: Record -> AnswerState)
    returns (out: Result<Value>, answer: Option<AnswerState>)
    requires step.chatHistory.Some?
    modifies step
    ensures step.chatHistory.Some?
    ensures target.step != ExtractQuery ==> step.chatHistory == old(step.chatHistory)
    ensures DataOf(payload).Err? ==> out == Err(TypeError(DataParameter)) && answer == None && step.chatHistory == old(step.chatHistory)
    ensures DataOf(payload).Ok? ==>
              var data := DataOf(payload).value;
              match target.step
              case ExtractQuery =>
                var q := Get(data, "question", Null);
                && answer == None
                && (q.Str? ==> step.chatHistory == Some(AddUserMessage(old(step.chatHistory.value), q.s))
                               && out == Ok(Dict(ExtractedRecord(q.s, llm(step.chatHistory.value)))))
                && (!q.Str? ==> step.chatHistory == old(step.chatHistory) && out == Err(TypeError("question")))
              case GetWikiUrl => out == AsPayload(GetUrls(data, web, fuel)) && answer == None
              case SearchUrl => out == AsPayload(SearchUrls(data, web)) && answer == None
              case ProcessSearchResult => out == AsPayload(ProcessedRecord(data)) && answer == None
              case AugmentedChat => out == Ok(Null) && answer == Some(answerer(data))
  {
    answer := None;
    if !payload.Dict? {
      return Err(TypeError(DataParameter)), None;
    }
    var data := payload.fields;
    match target.step {
      case ExtractQuery =>
        var r := step.ExtractQuery(data, llm);
        out := AsPayload(r);
      case GetWikiUrl =>
        out := AsPayload(GetUrls(data, web, fuel));
      case SearchUrl =>
        out := AsPayload(SearchUrls(data, web));
      case ProcessSearchResult =>
        var r := ProcessResults(data);
        out := AsPayload(r);
      case AugmentedChat =>
        out := Ok(Null);
        answer := Some(answerer(data));
    }
  }

  /** The step at position `k` of the chain. */
  function StepAt(k: nat): (s: StepName)
    requires k < 5
    ensures Position(s) == k
  {
    if k == 0 then ExtractQuery else if k == 1 then GetWikiUrl else if k == 2 then SearchUrl
    else if k == 3 then ProcessSearchResult else AugmentedChat
  }

  /** The trigger of the event that reaches step `k`. */
  function TriggerAt(k: nat): Trigger<StepName, string>
    requires k < 5
  {
    if k == 0 then Input(StartEvent) else FunctionResult(StepAt(k - 1), FunctionOf(StepAt(k - 1)))
  }

  /** The record `data` that step `k` receives. */
  function Carried(k: nat, question: string, llm: ChatHistory -> string, web: Web, fuel: nat): Record
    requires k < 5
  {
    if k == 0 then InitialPayload(question)
    else if k == 1 then ExtractedRecord(question, llm(QuestionHistory(question)))
    else if k == 2 then UrlRecord(question, ChainUrls(question, llm, web, fuel))
    else if k == 3 then SearchRecord(question, ChainResults(question, llm, web, fuel))
    else ContextRecord(question, ChainContext(question, llm, web, fuel))
  }

  /** The event waiting in the queue before step `k` runs. */
  function Pending(k: nat, question: string, llm: ChatHistory -> string, web: Web, fuel: nat): Event<StepName, string>
    requires k < 5
  {
    Event(TriggerAt(k), Dict(Carried(k, question, llm, web, fuel)))
  }

  /** The history of the extract step before step `k` runs. */
  function HistoryBefore(k: nat, question: string): ChatHistory {
    if k == 0 then ChatHistory(Some(ExtractQuerySystemPrompt), []) else QuestionHistory(question)
  }

  /** The trigger reaching step `k` has that step as its one target. */
  lemma TargetAt(k: nat)
    requires k < 5
    ensures TriggerAt(k) in WikiEdges
    ensures WikiEdges[TriggerAt(k)] == Target(StepAt(k), FunctionOf(StepAt(k)), DataParameter)
  {
  }

  /** The edge table has exactly five keys: the trigger reaching each step. */
  lemma WikiEdgesTriggers()
    ensures forall t :: t in WikiEdges <==> exists k :: 0 <= k < 5 && TriggerAt(k) == t
  {
    forall t | t in WikiEdges ensures exists k :: 0 <= k < 5 && TriggerAt(k) == t {
      if t == Input(StartEvent) {
        assert TriggerAt(0) == t;
      } else if t == FunctionResult(ExtractQuery, "extract_query") {
        assert TriggerAt(1) == t;
      } else if t == FunctionResult(GetWikiUrl, "get_urls") {
        assert TriggerAt(2) == t;
      } else if t == FunctionResult(SearchUrl, "search_urls") {
        assert TriggerAt(3) == t;
      } else {
        assert TriggerAt(4) == t;
      }
    }
    forall k | 0 <= k < 5 ensures TriggerAt(k) in WikiEdges {
      TargetAt(k);
    }
  }

  /** The result of step `k` is routed to step `k + 1` alone; the result of
      the last step is routed nowhere. */
  lemma RoutesOn(k: nat, v: Value)
    requires k < 5
    ensures Route(WikiEdges, Produced(StepAt(k), FunctionOf(StepAt(k)), v, []))
              == if k < 4 then [Event(TriggerAt(k + 1), v)] else []
  {
    var evs := Produced(StepAt(k), FunctionOf(StepAt(k)), v, []);
    assert evs == [Event(FunctionResult(StepAt(k), FunctionOf(StepAt(k))), v)];
    assert evs[1..] == [];
  }

  /** Deliver the pending event of step `k`: the next event is the one
      step `k + 1` receives, and the last step leaves the answer. */
  method Deliver(step: ExtractQueryStep, ghost k: nat, ev: Event<StepName, string>, question: string,
                 llm: ChatHistory -> string, web: Web, fuel: nat, answerer: Record -> AnswerState)
    returns (next: seq<Event<StepName, string>>, answer: Option<AnswerState>)
    requires k < 5 && ev == Pending(k, question, llm, web, fuel)
    requires step.chatHistory == Some(HistoryBefore(k, question))
    modifies step
    ensures step.chatHistory == Some(HistoryBefore(k + 1, question))
    ensures k < 4 ==> next == [Pending(k + 1, question, llm, web, fuel)] && answer == None
    ensures k == 4 ==> next == [] && answer == Some(answerer(ContextRecord(question, ChainContext(question, llm, web, fuel))))
  {
    TargetAt(k);
    var target := WikiEdges[ev.trigger];
    ghost var expected: Result<Value> :=
      if k < 4 then Ok(Dict(Carried(k + 1, question, llm, web, fuel))) else Ok(Null);
    if k == 1 {
      UrlStepComposes(question, llm(QuestionHistory(question)), web, fuel);
    } else if k == 2 {
      SearchStepComposes(question, ChainUrls(question, llm, web, fuel), web);
    } else if k == 3 {
      ProcessStepComposes(question, ChainResults(question, llm, web, fuel));
    }
    var out;
    out, answer := Dispatch(step, target, ev.payload, llm, web, fuel, answerer);
    assert out == expected;
    RoutesOn(k, out.value);
    next := if out.Ok? then Route(WikiEdges, Produced(target.step, target.functionName, out.value, [])) else [];
  }

  /** Start the process with `{"question": question}` and deliver events
      until none is left. The extract step is activated on its default state
      first. The run ends with the answering step's state computed from the
      context record of the chain, and the extract step's history holds the
      system prompt and the question. */
  method Run(question: string, llm: ChatHistory -> string, web: Web, fuel: nat, answerer: Record -> AnswerState)
    returns (state: AnswerState, history: ChatHistory)
    ensures state == answerer(ContextRecord(question, ChainContext(question, llm, web, fuel)))
    ensures history == QuestionHistory(question)
  {
    var step := new ExtractQueryStep();
    step.Activate(Some(EmptyHistory));
    var queue := Route(WikiEdges, [Event(Input(StartEvent), Dict(InitialPayload(question)))]);
    var final: Option<AnswerState> := None;
    ghost var k: nat := 0;
    while queue != []
      invariant k <= 5
      invariant k < 5 ==> queue == [Pending(k, question, llm, web, fuel)] && final == None
      invariant k == 5 ==> queue == [] && final == Some(answerer(ContextRecord(question, ChainContext(question, llm, web, fuel))))
      invariant step.chatHistory == Some(HistoryBefore(k, question))
      decreases 5 - k
    {
      var next, answer := Deliver(step, k, queue[0], question, llm, web, fuel, answerer);
      if answer.Some? {
        final := answer;
      }
      queue := queue[1..] + next;
      k := k + 1;
    }
    state := final.value;
    history := step.chatHistory.value;
  }

  /** `chat(question)`: the answer as `response` and the context as `context`. */
  function ChatResult(state: AnswerState): (result: map<string, string>)
    ensures result.Keys == {"response", "context"}
    ensures result["response"] == state.answer && result["context"] == state.context
  {
    map["response" := state.answer, "context" := state.context]
  }

  /** `WikiChatProcess.chat(question)` */
  method Chat(question: string, llm: ChatHistory -> string, web: Web, fuel: nat, answerer: Record -> AnswerState)
    returns (result: map<string, string>)
    ensures result == ChatResult(answerer(ContextRecord(question, ChainContext(question, llm, web, fuel))))
  {
    var state, _ := Run(question, llm, web, fuel, answerer);
    result := ChatResult(state);
  }

  /** `get_answer(question)`: a new process per call; the record has exactly
      the keys `response` and `context`, copied from `chat`'s result. */
  method GetAnswer(question: string, llm: ChatHistory -> string, web: Web, fuel: nat, answerer: Record -> AnswerState)
    returns (result: map<string, string>)
    ensures result.Keys == {"response", "context"}
    ensures var state := answerer(ContextRecord(question, ChainContext(question, llm, web, fuel)));
            result["response"] == state.answer && result["context"] == state.context
  {
    var chatResult := Chat(question, llm, web, fuel, answerer);
    result := map["response" := chatResult["response"], "context" := chatResult["context"]];
  }
}
