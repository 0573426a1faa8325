# Promptflow-to-Semantic-Kernel: a Dafny model of the pipelines' core

The repository ports two Promptflow flows to Semantic Kernel's process
framework. This project models what its own code decides and proves
properties of that model.

**The "DocumentationGeneration" process** (`src/copywriting/process_framework/main.py`)
- Four steps, wired by a routing table from trigger to (step, function,
  parameter).
- A gather step returns a fixed product description.
- A generator step keeps a chat history between calls. Each call adds one
  user message and emits one `documentation_generated` event.
- A proofreader emits either `documentation_approved` (the docs unchanged)
  or `documentation_rejected` (the explanation and the suggestions).
- Rejections go back to `apply_suggestions`. Approvals go to a publish step
  that emits nothing.
- The model: the table is a map, the generator is a class with a
  `chatHistory` field, and a fuel-bounded driver `Run` delivers the events.
- `Run` is proved to publish exactly the docs of the first approved round,
  every earlier round having been rejected. The generator's history then
  holds the product information and one rewrite request per rejection.

**The "ChatWithWikipedia" process** (`src/process_framework/wiki_chat_process.py` and its steps)
- Five steps form a linear chain. Every edge binds the payload to `data`.
- `ExtractQueryStep` keeps a history and returns the stripped reply with the
  question.
- `get_urls` looks the query up on Wikipedia. `search_urls` fetches each
  URL. `process_results` formats the pairs into one context string.
- Each step takes a record, returns a new one and carries `question`
  through. The driver `Run` is proved to end with the answering step's
  state computed from the context of the whole chain.

**The text helpers**
- `get_page_sentence`, the paragraph filter of `fetch_text_content_from_url`
  and the order-preserving batch `search_results_from_urls`
  (`web_utils.py`).
- `remove_nested_parentheses` and `get_wiki_urls` (`wiki_utils.py`).
- `shorten_text` and the pass/fail label of `print_row` (`print_eval.py`).

**Files**

| file | contents |
|---|---|
| `Text.dfy` | Python's `isspace`, `strip`, `split`, `join`, `in` and `s[:n]` |
| `Payload.dfy` | the values in payloads and records; `dict.get`; `KeyError`/`TypeError` results |
| `Conversation.dfy` | `ChatHistory` and `add_user_message` |
| `Http.dfy` | a fetched page as the code reads it; the network as an oracle |
| `Routing.dfy` | triggers, targets, events and routing through an edge table |
| `Copywriting.dfy` | the documentation process |
| `WikiUtils.dfy` | `remove_nested_parentheses`, `get_wiki_urls` |
| `WebUtils.dfy` | `get_page_sentence`, `fetch_text_content_from_url`, `search_results_from_urls` |
| `WikiSteps.dfy` | `ExtractQueryStep`, `get_urls`, `search_urls`, `process_results` |
| `WikiChatProcess.dfy` | the Wikipedia process: edges, driver, `chat`, `get_answer` |
| `PrintEval.dfy` | `shorten_text` and the metric labels |

**Boundary with the outside world.** Everything outside the repository's own
code reaches the model as a parameter:

| outside source | how it enters the model |
|---|---|
| documentation chat service | call-indexed oracle `llm: nat -> string` |
| proofreader's structured verdict | call-indexed oracle `review: nat -> ProofreadingResponse` |
| Wikipedia chat service | oracle over the history it is sent, `llm: ChatHistory -> string` |
| the network | `web: string -> WebPage`, giving the status and the texts of the HTML elements the code reads |
| the answering step | `answerer: Record -> AnswerState` |

The Semantic Kernel runtime is library code. Both drivers rest on two stated
assumptions:
- each event is delivered, in order, to the one target its trigger has in
  the edge table;
- a target declared without a function or parameter name reaches the step's
  only function through its only data parameter.

## Model

| member | source | states |
|---|---|---|
| Text.TrimStart | src/process_framework/utils/wiki_utils.py:38 | the result is a suffix of the input, every dropped character is whitespace, and the result does not start with whitespace |
| Text.TrimEnd | src/process_framework/utils/wiki_utils.py:38 | the result is a prefix of the input, every dropped character is whitespace, and the result does not end with whitespace |
| Text.TrimStartDropsSpace | src/process_framework/utils/wiki_utils.py:38 | every character `lstrip` drops is whitespace |
| Text.TrimEndDropsSpace | src/process_framework/utils/wiki_utils.py:38 | every character `rstrip` drops is whitespace |
| Text.TrimBoth | src/process_framework/utils/wiki_utils.py:38 | trimming both ends keeps a slice of the input with whitespace only before and after it, is empty exactly for an all-whitespace input, and otherwise starts and ends with non-whitespace |
| Text.Strip | src/wikipedia/process_framework/steps/extract_query_step.py:65 | `strip()` gives a slice of the input with only whitespace cut from either end; the result is "" exactly when the text is all whitespace, and otherwise has no whitespace at either end |
| Text.Split | src/wikipedia/process_framework/utils/web_utils.py:21 | `split(sep)` always gives at least one piece |
| Text.SplitHeadPrefix | src/wikipedia/process_framework/utils/web_utils.py:21 | the first piece of `split(sep)` is a prefix of the text |
| Text.SplitPiecesSeparatorFree | src/wikipedia/process_framework/utils/web_utils.py:26 | no piece of `split(sep)` contains the separator, so every occurrence was cut |
| Text.JoinSplit | src/wikipedia/process_framework/utils/web_utils.py:26 | joining the pieces of a split with the same separator gives back the text, so splitting loses nothing |
| Text.JoinAppend | src/process_framework/steps/process_search_result_step.py:26-28 | joining one more part adds the separator and that part at the end |
| Text.JoinEnds | src/wikipedia/process_framework/utils/web_utils.py:29 | `join` of no parts is ""; otherwise it starts with the first part and ends with the last |
| Text.ContainsIff | src/process_framework/utils/wiki_utils.py:57 | `sub in s` holds exactly when `sub` occurs at some position of `s` |
| Text.SplitCharCount | src/wikipedia/process_framework/utils/web_utils.py:53 | splitting on one character gives one more piece than the character occurs |
| Text.Prefix | src/process_framework/utils/wiki_utils.py:64 | `s[:n]` is a prefix of `s` whose length is `min(n, len(s))` for `n >= 0` and `max(len(s) + n, 0)` for negative `n` |
| Payload.Get | src/copywriting/process_framework/main.py:123 | `dict.get(key, default)` is the stored value when the key is present and the default otherwise |
| Conversation.Seeded | src/copywriting/process_framework/main.py:86 | a history created with a system message sends exactly that system message |
| Conversation.Entries | src/copywriting/process_framework/main.py:104-106 | the chat service receives the system message, if any, first and then the messages in the order they were added |
| Conversation.AddUserMessage | src/copywriting/process_framework/main.py:97-99 | adding a user message appends exactly one user entry to what the chat service receives and keeps the system message |
| Http.Blocks | src/wikipedia/process_framework/utils/web_utils.py:48 | the `p` texts come first and then the `ul` texts, each group in document order |
| Routing.Produced | src/copywriting/process_framework/main.py:108-110 | an invocation produces its function-result event first, then one event per emission, in emission order and tagged with the emitting step |
| Routing.Route | src/copywriting/process_framework/main.py:248-268 | routing never adds events, and routing two runs of events one after the other is routing their concatenation (RouteAppend) |
| Routing.RouteMembers | src/copywriting/process_framework/main.py:248-268 | an event survives routing exactly when its trigger has an edge |
| Routing.RouteAppend | src/copywriting/process_framework/main.py:248-268 | routing keeps order: the routed events of `a + b` are those of `a` followed by those of `b` |
| Routing.RouteSingle | src/copywriting/process_framework/main.py:248-268 | a single event is delivered exactly when its trigger has an edge |
| Copywriting.NameTextInjective | src/copywriting/process_framework/main.py:248-268 | the names of the process's events, functions and parameters are pairwise distinct strings, so routing by the enumeration is routing by the strings |
| Copywriting.DocEdgesTargetsFit | src/copywriting/process_framework/main.py:239-268 | every edge of the table calls a function its target step has, through that function's data parameter |
| Copywriting.DocEdgesSourcesFit | src/copywriting/process_framework/main.py:239-268 | every edge starts from a function result or an emitted event of its source step, and every event a step emits has an edge |
| Copywriting.GatherProductInformation | src/copywriting/process_framework/main.py:33-56 | the gather step returns the fixed product description |
| Copywriting.GatherIgnoresName | src/copywriting/process_framework/main.py:33-56 | the description is the same whatever product name is given |
| Copywriting.ProductMessageCarriesInfo | src/copywriting/process_framework/main.py:97-99 | the generator's user message starts with the "Product Information:" header and the product information follows it unchanged |
| Copywriting.RewriteMessageShape | src/copywriting/process_framework/main.py:123-127 | the rewrite request is the header alone without suggestions; otherwise the first suggestion follows the header and the last one ends the message |
| Copywriting.SuggestionsOf | src/copywriting/process_framework/main.py:123-124 | a missing `suggestions` key and an empty list or dict of any kind behave as an empty list, a list of strings is used as it is, and exactly the other values that are not a string raise |
| Copywriting.StringSuggestionsJoinChars | src/copywriting/process_framework/main.py:123-124 | a string given as the suggestions is joined one character per piece |
| Copywriting.GenerateDocumentationStep.constructor | src/copywriting/process_framework/main.py:59-63 | the default state has no history |
| Copywriting.GenerateDocumentationStep.Activate | src/copywriting/process_framework/main.py:82-87 | an existing history is kept as it is; only a missing one is replaced by one seeded with the generator's system prompt |
| Copywriting.GenerateDocumentationStep.GenerateDocumentation | src/copywriting/process_framework/main.py:89-110 | the history gains exactly the one user message "Product Information:\n" + info, and exactly one `documentation_generated` event carries the reply |
| Copywriting.GenerateDocumentationStep.ApplySuggestions | src/copywriting/process_framework/main.py:112-139 | the history gains exactly the one rewrite request (the fixed prefix, then the suggestions joined by "\n\t\t"), and exactly one `documentation_generated` event carries the reply; suggestions of the wrong kind raise and leave the history unchanged |
| Copywriting.RejectionInfo | src/copywriting/process_framework/main.py:208-214 | the rejection data has exactly the keys `explanation` and `suggestions`, holding the verdict's values |
| Copywriting.RejectionCarriesSuggestions | src/copywriting/process_framework/main.py:208-214 | `apply_suggestions` reads back exactly the suggestions the proofreader emitted |
| Copywriting.VerdictEmissionCarries | src/copywriting/process_framework/main.py:205-214 | the proofreader emits `documentation_approved` exactly when the verdict meets expectations, with the docs unchanged, and otherwise `documentation_rejected` with the explanation and the suggestions `apply_suggestions` reads back |
| Copywriting.ProofreadDocumentation | src/copywriting/process_framework/main.py:159-214 | a fresh history of exactly the system prompt and the docs; exactly one event, `documentation_approved` iff the verdict meets expectations (carrying the docs unchanged), `documentation_rejected` otherwise (carrying the rejection data) |
| Copywriting.PublishDocumentation | src/copywriting/process_framework/main.py:217-223 | publishing emits nothing |
| Copywriting.RejectionRoutesToApplySuggestions | src/copywriting/process_framework/main.py:250-264 | a rejection is routed to `apply_suggestions` with `rejected_docs_info`; `generate_documentation` is reached only from the gather step's result and `apply_suggestions` only from a rejection |
| Copywriting.ApprovalEndsAtPublish | src/copywriting/process_framework/main.py:217-268 | an approval is routed to `publish_documentation`, nothing else reaches the publish step, and nothing it produces is routed anywhere |
| Copywriting.ProofreadRoutesOnce | src/copywriting/process_framework/main.py:205-268 | only the two verdict events leave the proofreader, and each proofreading routes exactly its one verdict event onward |
| Copywriting.GatherRoutesToGenerator | src/copywriting/process_framework/main.py:250-254 | the gather step's result is routed on, unchanged |
| Copywriting.GeneratorRoutesOnce | src/copywriting/process_framework/main.py:256-258 | each generator call routes exactly its `documentation_generated` event onward, to the proofreader |
| Copywriting.GeneratorHistoryShape | src/copywriting/process_framework/main.py:82-139 | after the first generation and `r` rewrites the history is the system prompt, the product information, then the rewrite request of each rejection in order |
| Copywriting.StartRoutesToNext | src/copywriting/process_framework/main.py:248-254 | the start event's target turns it into the gathered description |
| Copywriting.GatheredRoutesToNext | src/copywriting/process_framework/main.py:250-258 | the gathered description's target turns it into the first generated docs |
| Copywriting.GeneratedRoutesToNext | src/copywriting/process_framework/main.py:256-268 | generated docs reach the proofreader, which turns them into one verdict event |
| Copywriting.ReviewedRoutesToNext | src/copywriting/process_framework/main.py:260-268 | an approval ends the run and a rejection yields the next generated docs |
| Copywriting.NextQueued | src/copywriting/process_framework/main.py:248-268 | at every stage before the end, the event in flight has an edge and its target's output is routed into the next stage's queue |
| Copywriting.InvokeGather | src/copywriting/process_framework/main.py:33-56 | the start event's invocation returns the description and changes nothing else |
| Copywriting.InvokeGenerate | src/copywriting/process_framework/main.py:89-110 | the first generation consumes one reply and leaves the history of round 0 |
| Copywriting.InvokeApply | src/copywriting/process_framework/main.py:112-139 | the rewrite after rejection `n` consumes one reply and leaves the history of round `n + 1` |
| Copywriting.InvokeProofread | src/copywriting/process_framework/main.py:159-214 | proofreading round `n` consumes one verdict and emits that verdict's event |
| Copywriting.InvokePublish | src/copywriting/process_framework/main.py:217-223 | publishing round `n` publishes exactly the `n`-th docs |
| Copywriting.Invoke | src/copywriting/process_framework/main.py:248-268 | the function an edge targets produces what the stage expects and moves the generator to the next stage |
| Copywriting.AdvanceKeepsRejections | src/copywriting/process_framework/main.py:205-214 | a delivery keeps every earlier round rejected and ends exactly on an approval |
| Copywriting.StoppedWithoutApproval | src/copywriting/process_framework/main.py:205-214 | a run stopped early has seen no approval within reach of its deliveries |
| Copywriting.Deliver | src/copywriting/process_framework/main.py:248-268 | one delivery yields the next stage's queue, the generator's next state and what it publishes |
| Copywriting.Run | src/copywriting/process_framework/main.py:270-277 | a run publishes exactly the docs of the first approved round, after every earlier round was rejected and with the matching history; a run that stops first had no approval within its fuel |
| WikiUtils.NextParen | src/process_framework/utils/wiki_utils.py:16 | the first parenthesis at or after a position, with none skipped |
| WikiUtils.GroupLen | src/process_framework/utils/wiki_utils.py:16 | a match of the pattern is at least three characters long |
| WikiUtils.NextParenIs | src/process_framework/utils/wiki_utils.py:16 | the first parenthesis at or after a position is the one position with no parenthesis before it |
| WikiUtils.GroupLenOfGroup | src/process_framework/utils/wiki_utils.py:16 | a whole group at the start matches exactly itself, whatever follows |
| WikiUtils.GroupLenBeforeOpen | src/process_framework/utils/wiki_utils.py:16 | a match cannot run into a following opening parenthesis |
| WikiUtils.HasGroupIff | src/process_framework/utils/wiki_utils.py:16-17 | `HasGroup`, the pattern search, succeeds exactly when some `(`...`)` with a non-empty, parenthesis-free inside occurs |
| WikiUtils.SubAll | src/process_framework/utils/wiki_utils.py:18 | a substitution with no match changes nothing, one with a match removes at least three characters; with SubAllDropsGroup this fixes `re.sub` on every input |
| WikiUtils.SubAllBeforeOpen | src/process_framework/utils/wiki_utils.py:18 | on a text followed by an opening parenthesis, `re.sub` treats the two parts independently |
| WikiUtils.SubAllDropsGroup | src/process_framework/utils/wiki_utils.py:18 | `re.sub` removes a group wherever it stands and keeps the text on each side, substituted on its own |
| WikiUtils.Unparenthesized | src/process_framework/utils/wiki_utils.py:15-19 | the fixpoint has no group left, is no longer than the input, and a text without groups is its own fixpoint; with UnparenthesizedDropsGroup this fixes the result on every input |
| WikiUtils.UnparenthesizedIdempotent | src/process_framework/utils/wiki_utils.py:15-19 | removing the groups twice is removing them once |
| WikiUtils.DeleteGroupKeepsFixpoint | src/process_framework/utils/wiki_utils.py:15-19 | deleting any one group leaves the result of the loop unchanged, so the order of removal does not matter |
| WikiUtils.SubAllKeepsFixpoint | src/process_framework/utils/wiki_utils.py:15-19 | one substitution on any part of a text leaves the result of the loop on the whole unchanged |
| WikiUtils.UnparenthesizedDropsGroup | src/process_framework/utils/wiki_utils.py:15-19 | a group is removed wherever it stands and only it: the loop gives the same on `a + g + b` as on `a + b` |
| WikiUtils.RemoveNestedParentheses | src/process_framework/utils/wiki_utils.py:15-19 | the loop ends with the fixpoint: no group left, and a text without groups returned unchanged |
| WikiUtils.NestedFirstRound | src/process_framework/utils/wiki_utils.py:18 | one substitution on `a(b(c))` removes only the innermost group |
| WikiUtils.NestedSecondRound | src/process_framework/utils/wiki_utils.py:17-18 | the next round removes the group that held it and the search then fails |
| WikiUtils.NestedExample | src/process_framework/utils/wiki_utils.py:15-19 | an example: `a(b(c))` becomes `a`, the inner group going on the first round and the group that held it on the next |
| WikiUtils.EmptyAndUnmatchedExample | src/process_framework/utils/wiki_utils.py:16-19 | examples: `a() (b` comes back unchanged, and from `a() (b(c)` only `(c)` is removed, so the empty pair and the unmatched parenthesis stay |
| WikiUtils.CleanTitle | src/process_framework/utils/wiki_utils.py:38-42 | a cleaned title has no group left |
| WikiUtils.SuggestionUrls | src/process_framework/utils/wiki_utils.py:46-51 | one search URL per heading, in heading order, each the search prefix plus the cleaned title |
| WikiUtils.FoundUrls | src/process_framework/utils/wiki_utils.py:22-60 | every URL collected before the final cut, including those of the "[entity]" re-query, starts with the Wikipedia search prefix |
| WikiUtils.WikiUrls | src/process_framework/utils/wiki_utils.py:22-64 | at most `count` URLs, each a search URL; none on a non-200 status; with headings, the first `count` suggestion URLs; with neither headings nor a disambiguation text, the search URL itself cut to `count`; on a disambiguation page, at most two |
| WikiUtils.GetWikiUrls | src/process_framework/utils/wiki_utils.py:22-64 | the list built by `extend`/`append` and cut at the end is the specified URL list |
| WikiUtils.WikiUrlsFromHeadings | src/process_framework/utils/wiki_utils.py:37-64 | with headings, exactly `min(count, len(headings))` URLs, entry `i` for heading `i` |
| WebUtils.ParagraphsStripped | src/wikipedia/process_framework/utils/web_utils.py:21-22 | every paragraph `Paragraphs` keeps is non-empty and stripped |
| WebUtils.SentencesWellFormed | src/wikipedia/process_framework/utils/web_utils.py:27 | every sentence `Sentences` keeps is a non-empty stripped fragment followed by "." |
| WebUtils.PeriodMakesSentence | src/wikipedia/process_framework/utils/web_utils.py:27 | a stripped fragment with a period appended is a sentence |
| WebUtils.TakenSentences | src/wikipedia/process_framework/utils/web_utils.py:29 | exactly `min(count, n)` sentences for `count >= 0` (none for `count == 0`), and they are the page's first sentences |
| WebUtils.TakenSentencesWellFormed | src/wikipedia/process_framework/utils/web_utils.py:24-29 | every sentence joined into the text is well formed |
| WebUtils.PageSentence | src/wikipedia/process_framework/utils/web_utils.py:29 | `count == 0` gives "", and for `count > 0` the text starts with the page's first sentence |
| WebUtils.JoinedSentencesEnding | src/wikipedia/process_framework/utils/web_utils.py:27-29 | well-formed sentences joined by spaces give "" or a text ending in "." |
| WebUtils.PageSentenceEnding | src/wikipedia/process_framework/utils/web_utils.py:19-29 | the text of a page is "" or ends in "." |
| WebUtils.ParagraphsAppend | src/wikipedia/process_framework/utils/web_utils.py:22 | the paragraph filter keeps line order |
| WebUtils.FragmentsAppend | src/wikipedia/process_framework/utils/web_utils.py:25-26 | `Fragments`, the `+=` loop over paragraphs, keeps paragraph order |
| WebUtils.SentencesAppend | src/wikipedia/process_framework/utils/web_utils.py:27 | the sentence filter keeps fragment order |
| WebUtils.LineSentencesAppend | src/wikipedia/process_framework/utils/web_utils.py:21-27 | sentence order follows line order |
| WebUtils.LineSentencesSingle | src/wikipedia/process_framework/utils/web_utils.py:24-27 | within a line, sentence order is the order of its ". " pieces |
| WebUtils.BlankLineSentences | src/wikipedia/process_framework/utils/web_utils.py:21-22 | a whitespace-only line on its own yields no sentence |
| WebUtils.BlankLineIgnored | src/wikipedia/process_framework/utils/web_utils.py:21-22 | a blank or whitespace-only line contributes no sentence wherever it stands |
| WebUtils.DoublePeriodExample | src/wikipedia/process_framework/utils/web_utils.py:27 | a fragment already ending in "." gets a second one |
| WebUtils.FragmentsSnoc | src/wikipedia/process_framework/utils/web_utils.py:25-26 | one more paragraph adds its ". " pieces at the end |
| WebUtils.SplitParagraphs | src/wikipedia/process_framework/utils/web_utils.py:24-26 | the accumulating loop yields the pieces of every paragraph, in order |
| WebUtils.GetPageSentence | src/wikipedia/process_framework/utils/web_utils.py:19-29 | the loop-based computation gives the specified text |
| WebUtils.HasThreeWordsIff | src/wikipedia/process_framework/utils/web_utils.py:53 | more than two space-separated pieces means at least two spaces |
| WebUtils.KeptTextAppend | src/wikipedia/process_framework/utils/web_utils.py:51-54 | `KeptText`, the page assembly, keeps the order of the texts |
| WebUtils.StripAll | src/wikipedia/process_framework/utils/web_utils.py:47-49 | one stripped text per element, in order |
| WebUtils.FetchSpec | src/wikipedia/process_framework/utils/web_utils.py:44-60 | the pair carries the URL asked for; a status other than 200 gives "No available content", and a page that answered gives "" or a text ending in "." |
| WebUtils.FetchSpecSentinelIff | src/wikipedia/process_framework/utils/web_utils.py:44-60 | the text is "No available content" exactly when the status is not 200 |
| WebUtils.AssemblePage | src/wikipedia/process_framework/utils/web_utils.py:51-54 | the `page +=` loop keeps exactly the texts of more than two pieces, each followed by "\n", in order |
| WebUtils.FetchTextContentFromUrl | src/wikipedia/process_framework/utils/web_utils.py:32-60 | the fetch gives the specified pair |
| WebUtils.FetchAll | src/wikipedia/process_framework/utils/web_utils.py:63-73 | one result per URL, in URL order, entry `i` for URL `i` |
| WebUtils.FetchAllSlotIsolated | src/wikipedia/process_framework/utils/web_utils.py:63-73 | each result depends only on the answer for its own URL |
| WebUtils.SearchResultsFromUrls | src/wikipedia/process_framework/utils/web_utils.py:63-73 | the batch loop yields the sequential map over the URLs |
| WikiSteps.ExtractedRecord | src/wikipedia/process_framework/steps/extract_query_step.py:65-69 | exactly the keys `extracted_query` (the stripped reply) and `question` (unchanged) |
| WikiSteps.ExtractQueryStep.constructor | src/wikipedia/process_framework/steps/extract_query_step.py:26-33 | the default state holds an empty history |
| WikiSteps.ExtractQueryStep.Activate | src/wikipedia/process_framework/steps/extract_query_step.py:39-44 | the system message becomes the step's prompt whatever it was; existing messages are kept and a history is created only when there is none |
| WikiSteps.ExtractQueryStep.ExtractQuery | src/wikipedia/process_framework/steps/extract_query_step.py:46-69 | the history gains exactly one user message, the question, and the record carries the stripped reply to that history; a question that is not a string raises and leaves the history unchanged |
| WikiSteps.GetUrls | src/wikipedia/process_framework/steps/get_wiki_url_step.py:16-27 | exactly the keys `question` (unchanged) and `url_list` (the URL list of the extracted query, at most `count` long); a missing key raises |
| WikiSteps.SearchUrls | src/process_framework/steps/search_url_step.py:16-27 | exactly the keys `question` (unchanged) and `search_results`, one result per URL with entry `i` for URL `i`; a missing key raises |
| WikiSteps.FormatDoc | src/process_framework/steps/process_search_result_step.py:17-19 | a block is the "Content: " label, the content, "\nSource: " and the URL, and both the content and the URL can be read back from their positions |
| WikiSteps.FormattedBlocks | src/process_framework/steps/process_search_result_step.py:17-28 | one block per result, in result order, block `i` formatted from pair `i` |
| WikiSteps.ContextString | src/process_framework/steps/process_search_result_step.py:26-28 | no results give the empty context |
| WikiSteps.ContextStringAppend | src/process_framework/steps/process_search_result_step.py:26-28 | one more result adds a blank line and its block at the end |
| WikiSteps.BuildContextList | src/process_framework/steps/process_search_result_step.py:21-23 | one entry per result, in order, holding its content and URL |
| WikiSteps.ContextListRoundTrip | src/process_framework/steps/process_search_result_step.py:21-28 | reading the pairs back out of `context_list` gives the original pairs, so the detour changes nothing |
| WikiSteps.ProcessedRecord | src/process_framework/steps/process_search_result_step.py:14-32 | exactly the keys `question` (unchanged) and `context` (the formatted results); a missing key raises |
| WikiSteps.ProcessResults | src/process_framework/steps/process_search_result_step.py:14-32 | the loop and the join give the specified record |
| WikiChatProcess.StartRoutesToExtractQuery | src/process_framework/wiki_chat_process.py:76-80 | "Start" is the only input event and goes to `extract_query` bound to `data` |
| WikiChatProcess.EveryEdgeBindsData | src/process_framework/wiki_chat_process.py:76-108 | every edge binds the payload to `data` and calls the function its target step exposes |
| WikiChatProcess.LinearChain | src/process_framework/wiki_chat_process.py:83-108 | each step's result leads to the next step, the last leads nowhere, no emitted event is routed, and no step is the target of two edges |
| WikiChatProcess.WikiEdgesTriggers | src/process_framework/wiki_chat_process.py:76-108 | the edge table has exactly five triggers, the one reaching each step of the chain |
| WikiChatProcess.InitialPayload | src/process_framework/wiki_chat_process.py:114 | the start payload is exactly `{"question": question}` |
| WikiChatProcess.QuestionHistory | src/wikipedia/process_framework/steps/extract_query_step.py:39-63 | the chat service is sent the system prompt and then the question |
| WikiChatProcess.UrlStepComposes | src/wikipedia/process_framework/steps/get_wiki_url_step.py:19-27 | `get_urls` accepts what `extract_query` returns, carries the question, and yields at most two URLs |
| WikiChatProcess.SearchStepComposes | src/process_framework/steps/search_url_step.py:19-27 | `search_urls` accepts what `get_urls` returns and carries the question |
| WikiChatProcess.ProcessStepComposes | src/process_framework/steps/process_search_result_step.py:22-32 | `process_results` accepts what `search_urls` returns and carries the question |
| WikiChatProcess.Dispatch | src/process_framework/wiki_chat_process.py:68-108 | each target runs its step's function on the `data` payload; only `extract_query` changes the history; a payload that is not a dict raises |
| WikiChatProcess.StepAt | src/process_framework/wiki_chat_process.py:69-73 | the step at position `k` of the chain |
| WikiChatProcess.TargetAt | src/process_framework/wiki_chat_process.py:76-108 | the trigger reaching step `k` has that step as its one target |
| WikiChatProcess.RoutesOn | src/process_framework/wiki_chat_process.py:83-108 | a step's result is routed to the next step alone, and the last step's result nowhere |
| WikiChatProcess.Deliver | src/process_framework/wiki_chat_process.py:76-108 | delivering step `k`'s event yields step `k + 1`'s event, and the last step leaves the answer |
| WikiChatProcess.Run | src/process_framework/wiki_chat_process.py:112-120 | a run ends with the answering step's state computed from the context of the whole chain, and the extract step's history then holds the prompt and the question |
| WikiChatProcess.ChatResult | src/process_framework/wiki_chat_process.py:127-133 | exactly the keys `response` (the answer) and `context` (the context) |
| WikiChatProcess.Chat | src/process_framework/wiki_chat_process.py:122-133 | `chat` projects the last step's answer and context |
| WikiChatProcess.GetAnswer | src/process_framework/wiki_chat_process.py:136-138 | exactly the keys `response` and `context`, holding `chat`'s answer and context |
| PrintEval.ShortenText | src/evaluation/print_eval.py:6-11 | "" for empty text; a text of at most `max_length` characters is kept; a longer one becomes its first `max_length` characters and "...", `max_length + 3` long |
| PrintEval.ShortenTextIdempotent | src/evaluation/print_eval.py:6-11 | for `max_length >= 0` shortening twice is shortening once |
| PrintEval.ResultLabel | src/evaluation/print_eval.py:50 | the label is "✅ Pass" exactly when the result is "pass", and "❌ Fail" otherwise |
| PrintEval.RowField | src/evaluation/print_eval.py:28-41 | a missing field reads as "" |
| PrintEval.MetricLabel | src/evaluation/print_eval.py:33-60 | a metric passes exactly when its field is present and equals "pass"; a missing field is a failure |
| PrintEval.RowLabels | src/evaluation/print_eval.py:48-61 | the three labels, in panel order, each pass exactly when its metric's result is "pass" |

## Left out

**Runtime and external services**
- The Semantic Kernel process engine (`ProcessBuilder`, `start`, `emit_event` delivery, `get_state`) is library code. The drivers and routing are defined here under the assumptions stated above. A documentation run is bounded by `fuel` because nothing in the process bounds the reject-and-rewrite cycle. Termination is not claimed.
- Chat services: the model does not capture how a reply depends on the history sent. In the documentation process the replies and verdicts are indexed by call number. In the Wikipedia process the reply is a function of the history.
- `ProofreadingResponse.model_validate_json` failures are not modelled: the verdict oracle always yields a well-formed `ProofreadingResponse`.
- `AugmentedChatStep` is not part of this model. Its answer and context come from an oracle over the record it receives.

**Network and HTML**
- HTTP: requests, headers, sessions and HTML parsing. A page is the status and the `get_text()` of the elements the code reads, in document order.
- The random sleep before each fetch, and exceptions raised by a fetch, which propagate out of the batch.
- `ThreadPoolExecutor`: `executor.map` yields results in input order, so the batch is a sequential loop.
- `decode_str` is taken as the identity. Its codec round trip holds for titles without backslashes and non-ASCII characters.
- URL encoding of the search term is not modelled. The search URL is the prefix followed by the entity text.
- WikiUtils.WikiUrls: the disambiguation re-query on "[entity]" may recur without bound. Each re-query uses up one unit of `fuel` and gives no URLs once `fuel` is spent. For that case the contract states only the bound of two URLs.

**Texts and configuration**
- The product name "Contoso GlowBrew" that the demo passes at the start is not a constant of the model: the gathered description does not depend on it (Copywriting.GatherIgnoresName).
- Prompt texts and the GlowBrew description are constants whose text is not part of this model. This includes the date formatted into the extract prompt.
- Telemetry, `load_dotenv` and the environment variables.
- `rich` output: `print` calls, `print_metrics`, and the table and panel of `print_row`.
- PrintEval.RowField: the row's values are taken to be strings. `print_row` formats other values, such as numbers, with `str`.

**Other code**
- The evaluation harnesses, the Azure agent scripts and the demo entry points (`main.py`, `wikipedia.py`).

**Type errors**
- Where a payload value has the wrong kind, the model stops with `TypeError`. Python may go on in these cases, or fail later and elsewhere:
  - a non-dict `data`: Python fails at the first access to it;
  - a non-string question: Python hands it to `add_user_message`;
  - a non-string extracted query: Python formats it into the search URL (src/process_framework/utils/wiki_utils.py:24) and would fail only at the `"[" + entity + "]"` re-query (src/process_framework/utils/wiki_utils.py:58);
  - a non-list `url_list`: Python takes any sized iterable (src/process_framework/steps/search_url_step.py:19-21);
  - `search_results` that are not a list of pairs: the loop at src/process_framework/steps/process_search_result_step.py:22 takes any iterable of pairs;
  - suggestions that are neither a string nor a list of strings, nor an empty list or dict: Python raises for `None` and for a list of pairs, and joins a dict by its keys.
- WikiSteps.ExtractQueryStep.ExtractQuery: a missing question gives `None`. Python passes `None` on to `add_user_message`. The model reports a type error there and leaves the history unchanged.
- Copywriting.GenerateDocumentationStep.ApplySuggestions: a non-empty dict given as the suggestions would be joined by its keys in insertion order. A model record has no order, so the model reports that case as a type error.

**State**
- The system message of a `ChatHistory` is kept apart from its messages, and the chat service is sent that message first. This follows `ChatHistory(system_message=...)`.
- `get_wiki_urls` mutates only a fresh local list. It is modelled as a specification function (`WikiUrls`) and a method (`GetWikiUrls`) that builds the list step by step. For the re-query, the method calls the specification function.
