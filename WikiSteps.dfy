/** The steps of the Wikipedia chat pipeline that are part of the model:
    `ExtractQueryStep` (the only one with state), `GetWikiUrlStep.get_urls`,
    `SearchUrlStep.search_urls` and `ProcessSearchResultStep.process_results`.
    Each takes the record the previous step returned and returns a new one. */
module WikiSteps {
  import opened Text
  import opened Payload
  import opened Http
  import opened Conversation
  import opened WikiUtils
  import opened WebUtils

  /** `ExtractQueryStep.system_prompt`: the query-extraction prompt with the
      current date filled in; its text is not part of this model. */
  const ExtractQuerySystemPrompt: string

  /** The record `extract_query` returns. */
  function ExtractedRecord(question: string, reply: string): (r: Record)
    ensures r.Keys == {"extracted_query", "question"}
    ensures r["question"] == Str(question)
    ensures r["extracted_query"] == Str(Strip(reply))
  {
    map["extracted_query" := Str(Strip(reply)), "question" := Str(question)]
  }

  /** The step that turns the user's question into a search query. Its state
      is the chat history, which persists across calls. */
  class ExtractQueryStep {
    var chatHistory: Option<ChatHistory>

    /** The state's default: `ExtractQueryStepState()` holds `ChatHistory()`. */
    constructor ()
      ensures chatHistory == Some(EmptyHistory)
    {
      chatHistory := Some(EmptyHistory);
    }

    /** `activate(state)`: take over the seeded history, create one when there
        is none, and set its system message to the step's prompt. The
        messages of an existing history are kept. */
    method Activate(seed: Option<ChatHistory>)
      modifies this
      ensures chatHistory.Some?
      ensures chatHistory.value.systemMessage == Some(ExtractQuerySystemPrompt)
      ensures chatHistory.value.messages == if seed.Some? then seed.value.messages else []
      ensures Entries(chatHistory.value)[0] == Message(System, ExtractQuerySystemPrompt)
    {
      chatHistory := seed;
      if chatHistory.None? {
        chatHistory := Some(Seeded(ExtractQuerySystemPrompt));
      }
      chatHistory := Some(chatHistory.value.(systemMessage := Some(ExtractQuerySystemPrompt)));
    }

    /** `extract_query(data)`: add the question as one user message, send the
        history to the chat service (the oracle `llm`, which sees the whole
        history) and return the stripped reply with
        the question. A question that is missing (`data.get` gives None) or is
        not a string is reported as a type error and leaves the history as it
        was. */
    method ExtractQuery(data: Record, llm: ChatHistory -> string) returns (r: Result<Record>)
      requires chatHistory.Some?
      modifies this
      ensures chatHistory.Some?
      ensures Get(data, "question", Null).Str? ==>
                var q := Get(data, "question", Null).s;
                && chatHistory == Some(AddUserMessage(old(chatHistory.value), q))
                && r == Ok(ExtractedRecord(q, llm(chatHistory.value)))
      ensures !Get(data, "question", Null).Str? ==>
                chatHistory == old(chatHistory) && r == Err(TypeError("question"))
    {
      var question := Get(data, "question", Null);
      if !question.Str? {
        return Err(TypeError("question"));
      }
      chatHistory := Some(AddUserMessage(chatHistory.value, question.s));
      var response := llm(chatHistory.value);
      r := Ok(ExtractedRecord(question.s, response));
    }
  }

  /** `GetWikiUrlStep.get_urls(data, count)`: look the extracted query up and
      pass the question on. `fuel` bounds the disambiguation re-queries of the
      lookup. */
  function GetUrls(data: Record, web: Web, fuel: nat, count: int := DefaultUrlCount): (r: Result<Record>)
    ensures "extracted_query" !in data ==> r == Err(KeyError("extracted_query"))
    ensures r.Ok? <==> "extracted_query" in data && data["extracted_query"].Str? && "question" in data
    ensures r.Ok? ==>
              && r.value.Keys == {"question", "url_list"}
              && r.value["question"] == data["question"]
              && r.value["url_list"] == StrList(WikiUrls(data["extracted_query"].s, count, web, fuel))
    ensures r.Ok? && count >= 0 ==> |r.value["url_list"].items| <= count
  {
    if "extracted_query" !in data then Err(KeyError("extracted_query"))
    else if !data["extracted_query"].Str? then Err(TypeError("extracted_query"))
    else
      var urls := WikiUrls(data["extracted_query"].s, count, web, fuel);
      if "question" !in data then Err(KeyError("question"))
      else Ok(map["question" := data["question"], "url_list" := StrList(urls)])
  }

  /** `SearchUrlStep.search_urls(data, count)`: fetch every URL of the list,
      one result per URL in list order, and pass the question on. */
  function SearchUrls(data: Record, web: Web, count: int := DefaultSentenceCount): (r: Result<Record>)
    ensures "url_list" !in data ==> r == Err(KeyError("url_list"))
    ensures r.Ok? <==> "url_list" in data && data["url_list"].StrList? && "question" in data
    ensures r.Ok? ==>
              var urls := data["url_list"].items;
              && r.value.Keys == {"question", "search_results"}
              && r.value["question"] == data["question"]
              && r.value["search_results"] == Results(FetchAll(urls, count, web))
              && |r.value["search_results"].pairs| == |urls|
              && forall i :: 0 <= i < |urls| ==> r.value["search_results"].pairs[i].url == urls[i]
  {
    if "url_list" !in data then Err(KeyError("url_list"))
    else if !data["url_list"].StrList? then Err(TypeError("url_list"))
    else
      var results := FetchAll(data["url_list"].items, count, web);
      if "question" !in data then Err(KeyError("question"))
      else Ok(map["question" := data["question"], "search_results" := Results(results)])
  }

  const ContentLabel: string := "Content: "
  const SourceLabel: string := "\nSource: "

  /** `format_doc((url, content))`: the content after its label, then the URL
      after its label on the next line; both can be read back. */
  function FormatDoc(url: string, content: string): (block: string)
    ensures |block| == |ContentLabel| + |content| + |SourceLabel| + |url|
    ensures block[..|ContentLabel|] == ContentLabel
    ensures block[|ContentLabel|..|ContentLabel| + |content|] == content
    ensures block[|block| - |url| - |SourceLabel|..|block| - |url|] == SourceLabel
    ensures block[|block| - |url|..] == url
  {
    ContentLabel + content + SourceLabel + url
  }

  const BlockBreak: string := "\n\n"

  /** One formatted block per result, in result order. */
  function FormattedBlocks(results: seq<FetchResult>): (blocks: seq<string>)
    ensures |blocks| == |results|
    ensures forall i :: 0 <= i < |results| ==> blocks[i] == FormatDoc(results[i].url, results[i].content)
  {
    seq(|results|, i requires 0 <= i < |results| => FormatDoc(results[i].url, results[i].content))
  }

  /** The context string: the blocks separated by blank lines. */
  function ContextString(results: seq<FetchResult>): (context: string)
    ensures results == [] ==> context == ""
  {
    Join(FormattedBlocks(results), BlockBreak)
  }

  /** One more result adds a blank line and its block at the end. */
  lemma ContextStringAppend(results: seq<FetchResult>, r: FetchResult)
    ensures ContextString(results + [r]) ==
              if results == [] then FormatDoc(r.url, r.content)
              else ContextString(results) + BlockBreak + FormatDoc(r.url, r.content)
  {
    assert FormattedBlocks(results + [r]) == FormattedBlocks(results) + [FormatDoc(r.url, r.content)];
    JoinAppend(FormattedBlocks(results), FormatDoc(r.url, r.content), BlockBreak);
  }

  /** An entry of `context_list`: `{"Content": content, "Source": url}`. */
  datatype ContextEntry = ContextEntry(content: string, source: string)

  /** The loop `for url, content in data["search_results"]: context_list.append(...)` */
  method BuildContextList(results: seq<FetchResult>) returns (contextList: seq<ContextEntry>)
    ensures |contextList| == |results|
    ensures forall i :: 0 <= i < |results| ==> contextList[i] == ContextEntry(results[i].content, results[i].url)
  {
    contextList := [];
    for i := 0 to |results|
      invariant |contextList| == i
      invariant forall k :: 0 <= k < i ==> contextList[k] == ContextEntry(results[k].content, results[k].url)
    {
      contextList := contextList + [ContextEntry(results[i].content, results[i].url)];
    }
  }

  /** `[format_doc((c["Source"], c["Content"])) for c in context_list]` joined. */
  function ContextFromEntries(contextList: seq<ContextEntry>): string {
    Join(seq(|contextList|, i requires 0 <= i < |contextList| => FormatDoc(contextList[i].source, contextList[i].content)), BlockBreak)
  }

  /** Reading the pairs back out of `context_list` gives the results'
      `(url, content)` pairs exactly, so the detour through it changes nothing. */
  lemma ContextListRoundTrip(results: seq<FetchResult>, contextList: seq<ContextEntry>)
    requires |contextList| == |results|
    requires forall i :: 0 <= i < |results| ==> contextList[i] == ContextEntry(results[i].content, results[i].url)
    ensures forall i :: 0 <= i < |results| ==> FetchResult(contextList[i].source, contextList[i].content) == results[i]
    ensures ContextFromEntries(contextList) == ContextString(results)
  {
    assert seq(|contextList|, i requires 0 <= i < |contextList| => FormatDoc(contextList[i].source, contextList[i].content))
        == FormattedBlocks(results);
  }

  /** What `process_results(data)` returns. */
  function ProcessedRecord(data: Record): (r: Result<Record>)
    ensures "search_results" !in data ==> r == Err(KeyError("search_results"))
    ensures r.Ok? <==> "search_results" in data && data["search_results"].Results? && "question" in data
    ensures r.Ok? ==>
              && r.value.Keys == {"question", "context"}
              && r.value["question"] == data["question"]
              && r.value["context"] == Str(ContextString(data["search_results"].pairs))
  {
    if "search_results" !in data then Err(KeyError("search_results"))
    else if !data["search_results"].Results? then Err(TypeError("search_results"))
    else if "question" !in data then Err(KeyError("question"))
    else Ok(map["question" := data["question"], "context" := Str(ContextString(data["search_results"].pairs))])
  }

  /** `ProcessSearchResultStep.process_results(data)` */
  method ProcessResults(data: Record) returns (r: Result<Record>)
    ensures r == ProcessedRecord(data)
  {
    if "search_results" !in data {
      return Err(KeyError("search_results"));
    }
    if !data["search_results"].Results? {
      return Err(TypeError("search_results"));
    }
    var results := data["search_results"].pairs;
    var contextList := BuildContextList(results);
    ContextListRoundTrip(results, contextList);
    var contextStr := ContextFromEntries(contextList);
    if "question" !in data {
      return Err(KeyError("question"));
    }
    r := Ok(map["question" := data["question"], "context" := Str(contextStr)]);
  }
}
