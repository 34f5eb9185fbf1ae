# helse-agentic-library: a Dafny model of the agent core

The library is a small TypeScript agent on top of the OpenAI chat API. A
module-level configuration holds the API key, default model and
parameters, the tools the model may call, lifecycle callbacks and an
optional system prompt. `configureAgent` merges a partial configuration
into it and rebuilds the client. The agent's `run` drives a conversation:
it sends the history to the model, runs the tools the model asks for, feeds
their results back, and stops at the first textual answer or after
`maxTurns` model calls. `getWritingSuggestions` asks the model for writing
suggestions as JSON and cleans up whatever comes back. Every step is
reported to the observer callbacks, whose failures never disturb the agent.
An example tool in the repository computes text statistics: words,
sentences, paragraphs, syllables and word frequencies.

The model has these modules:

- `Wrappers`, `JsonValue`, `Types`: the value types. `JsonValue` holds JSON
  values and the JavaScript coercions the code applies to them (truthiness,
  property reads, `String(...)`).
- `Configuration`: the shallow configuration merge.
- `Utils`: `triggerCallback` and `findTool`.
- `Conversation`: the specification of `run`.
  - `TurnStep` is one iteration of the turn loop. `Turns` is the loop.
  - `RunSpec` is the whole call, including the `catch` block.
  - `Deliver` is the sequence of observer invocations.
- `Agent`: the module state as a class (`config`, `client`).
  - `Configure` updates that state.
  - `Run` is the loop written imperatively. It is proved equal to `RunSpec`, one method per loop level.
  - `GetWritingSuggestions` is the suggestion call.
- `Suggestions`: parsing and normalising the suggestion reply; `Filtering` is `Array.prototype.filter` with its guarantees.
- `Strings`, `TextSplit`, `TextAnalysis`, `WordFrequency`: the helpers of the text-analysis tool.
- `Sequences`: generic facts about concatenation and slicing that the proofs cite.

The model endpoint, `JSON.parse` and each tool's `execute` are function
parameters (`Backend`, and `complete`/`parseJson` for the suggestion
call). Each observer is a function saying whether it throws on an event.
Rendering a number as a string (`Number.prototype.toString`) is the
parameter `showNumber`.

When the loop ends without an answer, the answer is the last assistant
message whose content is a string, used only if that string is non-empty.
A later assistant message with empty content therefore hides an earlier
one with text, and the fixed "could not reach a final answer" message is
returned (`Conversation.Fallback`, `Conversation.LastTextual`).

Two further points about the code:

- `maxSuggestions` is only written into the prompt. The number of
  suggestions returned is not limited by it.
- A run that throws can make fewer than `maxTurns` calls. A run that ends
  without a final text and without throwing makes exactly `maxTurns` calls
  (`Conversation.RunOutcome`).

## Model

| member | source | states |
|---|---|---|
| Configuration.Merge | src/agent.ts:32 | each of the seven configuration fields is taken from the patch when the patch has the key (even when its value is undefined), and kept otherwise |
| Configuration.MergeTwice | src/agent.ts:31-32 | two successive configurations equal one configuration with the combined patch |
| Configuration.MergeIdempotent | src/agent.ts:31-32 | configuring twice with the same patch is the same as configuring once |
| Configuration.MergeNoChange | src/agent.ts:31-32 | an empty patch changes nothing |
| Configuration.ClientFor | src/agent.ts:35-39 | a client exists exactly when the merged API key is present and non-empty, and it is built from that key |
| Agent.Agent.constructor | src/agent.ts:18-25 | the module starts with the default configuration and no client |
| Agent.Agent.Configure | src/agent.ts:31-42 | the new configuration is the merge of the old one and the patch; the client is rebuilt from the merged key, or dropped when the key is missing or empty |
| Utils.TriggerCallback | src/utils.ts:10-26 | no observer: nothing is invoked; otherwise the observer is invoked exactly once with the payload, and whether it throws is recorded and goes no further |
| Utils.FindTool | src/utils.ts:35-37 | the result is the first tool whose name equals the requested name exactly; there is no result only when the list is absent or no tool has that name |
| Conversation.DispatchOne | src/agent.ts:113-147 | every function call is answered by exactly one tool message carrying the call's id |
| Conversation.DispatchOneIsolated | src/agent.ts:115-147 | a call that fails to parse, names an unknown tool or whose tool throws yields an "Error: " message and exactly one error event with stage tool_args_parse, tool_find or tool_execute; a successful call yields no error event; its events are the tool's start with the parsed arguments, then its end and the observation, both carrying the output `execute` returned, which is also the tool message |
| Conversation.DispatchAllAppends | src/agent.ts:110-148 | the tool-call loop only appends: the history gains one reply per function call and the events gain each call's events, in call order |
| Conversation.DispatchAllAnswers | src/agent.ts:110-148 | after the tool-call loop, the new history entries answer exactly the function calls' ids in order; the new error events carry exactly the failing calls' stages; a failure does not stop the loop |
| Conversation.RepliesAnswer | src/agent.ts:112-148 | the replies to a block of calls answer the function calls' ids one for one, skipping calls of other types |
| Conversation.CallEventsErrors | src/agent.ts:112-148 | the error stages emitted for a block of calls are exactly the failing calls' stages, in order |
| Conversation.LastTextual | src/agent.ts:172 | the position of the last assistant message whose content is a string, or -1 |
| Conversation.Fallback | src/agent.ts:169-174 | the fallback answer is never empty; it is the content of the last assistant message whose content is a string when that content is non-empty, and the fixed message when that content is empty or there is no such message |
| Conversation.StepAppends | src/agent.ts:76-166 | one turn appends exactly one request, built from the history as it was at the start of the turn, and only appends to the history and the events |
| Conversation.TurnsAppendOnly | src/agent.ts:76-166 | the loop sends at most maxTurns requests and only ever appends to the history and the events |
| Conversation.TurnsConsistent | src/agent.ts:76-166 | after any number of turns, each request carries a prefix of the history, and each assistant message is followed by the answers to its function calls |
| Conversation.TurnsStop | src/agent.ts:92-166 | every reply before the last one continued the loop; a transport fault or a missing message stops it with that error; a non-empty answer is the content of the last reply, which had no tool calls; an empty stop means every turn was used |
| Conversation.PairedHasNoPrompts | src/agent.ts:108-146 | after the seed, the history holds only assistant and tool messages |
| Conversation.RunWithoutClient | src/agent.ts:56-58 | without a client, run throws the not-configured error before any model call, event or history entry |
| Conversation.RunHistory | src/agent.ts:63-166 | the history is the optional system prompt and the one user message, then assistant messages each followed by the answers to its function calls; the first request carries exactly the seed; each later request strictly extends the one before |
| Conversation.RunOutcome | src/agent.ts:55-185 | at most maxTurns model calls; the first reply without tool calls and with non-empty content is the answer; a fault or a missing message throws "Agent run failed on stage ..." with the stage or agent_run; a run that never got a final reply used every turn and answers with the fallback; the answer is never empty |
| Conversation.RunEvents | src/agent.ts:66-181 | the events open with the start event and close with the end event carrying the answer, or with an error event when the run throws; after a failed model call that event carries the call's error and its stage (or `agent_run` when the error has none), and after a reply with no message it carries "No message received from LLM." with stage `agent_run` |
| Conversation.DeliverInOrder | src/utils.ts:10-26 | the observer invocations are one per event that has an observer, in emission order |
| Conversation.RunIgnoresObservers | src/utils.ts:14-24 | which observers are registered, and whether they throw, changes nothing in the outcome, the history, the events or the requests |
| Conversation.TurnsIgnoreCallbacks | src/agent.ts:76-166 | the turn loop does not depend on the registered observers |
| Conversation.DispatchAllIgnoresCallbacks | src/agent.ts:112-148 | the tool-call loop does not depend on the registered observers |
| Agent.Agent.Run | src/agent.ts:55-185 | the imperative run produces exactly the outcome, history, events and requests of the run specification; the observer invocations are those its events cause, in order |
| Agent.Agent.Turn | src/agent.ts:76-165 | one loop iteration produces the specified turn: the same new state, and it stops exactly when the specification stops |
| Agent.Agent.DispatchToolCalls | src/agent.ts:112-148 | the inner loop over the tool calls produces the specified history and events |
| Agent.Agent.DispatchToolCall | src/agent.ts:113-147 | a call of another type changes nothing; a function call appends its single reply and its events |
| Agent.Agent.InvokeTool | src/agent.ts:135-147 | running a found tool appends its output, or the error message, with the start/end/observation or start/error events |
| Agent.Emit | src/utils.ts:10-26 | emitting an event appends it and keeps the invocation log equal to the invocations of all events so far |
| Agent.Agent.GetWritingSuggestions | src/agent.ts:228-312 | no client: throws with no event; otherwise one request with the model, types and budget resolved by `??`, a start event naming the types; a failed call gives an error event with stage writing_suggestions and a "Failed to generate writing suggestions: " error; otherwise the parsed suggestions, a parse_suggestions error event when parsing failed, and an end event with the count |
| Suggestions.SuggestionRequestFor | src/agent.ts:240-242 | the model is the option, else the configured default, else gpt-4o; the types are the option or the five default kinds; the budget is the option or 5 |
| Suggestions.ReplyText | src/agent.ts:275 | the trimmed reply content, or "[]" when the reply has no message or no content |
| Suggestions.Candidates | src/agent.ts:279-284 | an array is taken as is; null throws; an object or primitive without a truthy `suggestions` gives none; a truthy non-array `suggestions` throws because it has no `filter` |
| Suggestions.KindOf | src/agent.ts:286-288 | a `type` that is exactly one of the six names is kept, anything else becomes other |
| Suggestions.Clamp | src/agent.ts:292 | the confidence is clamped into [0, 1]: values inside are kept, values below become 0, values above become 1 |
| Suggestions.ShapeSpec | src/agent.ts:285-294 | the shaped suggestion has both texts as strings, an explanation exactly when the entry's is truthy, a confidence exactly when it is a number, a position exactly when it is a truthy object; it fails exactly when a `String(...)` coercion throws |
| Suggestions.Normalise | src/agent.ts:283-294 | on success there is one suggestion per kept entry, so never more than the candidates |
| Suggestions.NormaliseElements | src/agent.ts:283-294 | each suggestion is the shape of the kept entry at the same position |
| Suggestions.NormaliseFailure | src/agent.ts:283-294 | the map throws exactly when shaping one of the kept entries throws |
| Filtering.FilterPositions | src/agent.ts:284 | each kept entry passes the filter and is the entry at its recorded position |
| Filtering.FilterIncreasing | src/agent.ts:284 | kept entries keep their input order |
| Filtering.FilterComplete | src/agent.ts:284 | no entry that passes the filter is dropped |
| Filtering.FilterAll | src/agent.ts:284 | when every entry passes, the filter keeps them all |
| Filtering.FilterConcat | src/agent.ts:284 | filtering a concatenation is filtering each part |
| Suggestions.FromContent | src/agent.ts:278-302 | malformed JSON, null, or a non-array `suggestions` gives no suggestions and a "Failed to parse writing suggestions: " error; otherwise the normalised suggestions, never more than the candidates |
| Suggestions.RoundTrip | src/types.ts:80-96 | well-formed suggestions written out as JSON objects normalise back to themselves |
| Suggestions.CandidatesOfList | src/agent.ts:280 | a bare array and an object with a `suggestions` array select the same entries |
| Suggestions.FromContentRoundTrip | src/agent.ts:275-302 | a reply whose content parses to well-formed suggestions, in either layout, yields exactly those suggestions and no error |
| Suggestions.ShapeEncode | src/agent.ts:285-294 | shaping the JSON form of a well-formed suggestion gives it back |
| TextSplit.MatchLen | examples/text-analysis-tool.ts:79 | a class separator matches its whole run; a paragraph break matches exactly when a line feed is followed, within the same whitespace, by another line feed, and then starts and ends with a line feed, is all whitespace and reaches the last line feed of that whitespace |
| TextSplit.SplitRunCount | examples/text-analysis-tool.ts:70 | splitting on runs of a class and dropping empty pieces leaves one piece per maximal run outside the class |
| TextSplit.SplitRunConcat | examples/text-analysis-tool.ts:70-75 | the pieces joined back are the text with the separator characters removed |
| TextSplit.RunsZero | examples/text-analysis-tool.ts:70 | there is no run exactly when every character is in the class |
| TextSplit.SplitNoMatch | examples/text-analysis-tool.ts:75-79 | text in which the separator never matches is a single piece |
| TextAnalysis.CountWordsIsRuns | examples/text-analysis-tool.ts:69-71 | the word count is the number of maximal runs of non-whitespace characters |
| TextAnalysis.CountWordsZero | examples/text-analysis-tool.ts:69-71 | the word count is 0 exactly for blank text |
| TextAnalysis.CountSentencesBounds | examples/text-analysis-tool.ts:73-76 | the sentence count never exceeds the runs between terminators, and it is 0 exactly when the text holds only terminators and whitespace |
| TextAnalysis.CountSentencesUnterminated | examples/text-analysis-tool.ts:73-76 | text without a terminator is one sentence, or none when it is blank |
| TextAnalysis.CountParagraphs | examples/text-analysis-tool.ts:78-80 | the paragraph count is at least 1 |
| TextAnalysis.CountParagraphsSingle | examples/text-analysis-tool.ts:78-80 | text without a line feed is one paragraph |
| TextAnalysis.CountParagraphsTwo | examples/text-analysis-tool.ts:78-80 | two single-line paragraphs separated by a blank line count as two |
| TextAnalysis.LowerLetterCases | examples/text-analysis-tool.ts:83 | a-z is kept; A-Z becomes the same letter in lower case; U+0130 gives "i" and U+212A gives "k"; every other character gives nothing |
| TextAnalysis.Letters | examples/text-analysis-tool.ts:83 | the normalised word holds only the letters a-z and is no longer than the word |
| TextAnalysis.LettersConcat | examples/text-analysis-tool.ts:83 | the normalisation works character by character: the letters of a concatenation are the letters of each part, in order |
| TextAnalysis.LettersKeepLower | examples/text-analysis-tool.ts:83 | a word made only of the letters a-z is kept unchanged |
| TextAnalysis.CountSyllables | examples/text-analysis-tool.ts:82-108 | at least 1; exactly 1 for a word of at most three letters; otherwise the number of vowel groups less a silent final e, and at least 1 |
| TextAnalysis.StartsSnoc | examples/text-analysis-tool.ts:93-99 | reading one more letter adds a vowel group exactly when it is a vowel after a non-vowel |
| TextAnalysis.SilentEHasGroup | examples/text-analysis-tool.ts:102-104 | a word ending in a silent e has a vowel group, so the adjustment never goes below zero |
| TextAnalysis.VowelGroupsAtMostLength | examples/text-analysis-tool.ts:89-99 | a word has at most as many vowel groups as letters |
| WordFrequency.CalculateWordFrequency | examples/text-analysis-tool.ts:152-171 | the keys are exactly the words that are neither stop words nor one character long; each count is the word's number of occurrences and at least 1; keys follow the order of first occurrence |
| WordFrequency.Increment | examples/text-analysis-tool.ts:166 | a new key goes to the end of the insertion order with count 1; an existing key keeps its place and its count grows by one |
| WordFrequency.TallyStep | examples/text-analysis-tool.ts:165-167 | each word keeps the tally of the words read so far |
| WordFrequency.Insert | examples/text-analysis-tool.ts:176 | insertion adds exactly one entry |
| WordFrequency.SortByCount | examples/text-analysis-tool.ts:176 | the sort is a permutation of the entries |
| WordFrequency.SortSorted | examples/text-analysis-tool.ts:176 | the sorted entries have non-increasing counts |
| WordFrequency.SortStable | examples/text-analysis-tool.ts:176 | entries with equal counts keep their insertion order |
| WordFrequency.SliceEnd | examples/text-analysis-tool.ts:177 | `slice(0, count)` keeps `count` entries at most, and a negative count drops that many from the end |
| WordFrequency.GetTopWords | examples/text-analysis-tool.ts:173-178 | at most `count` entries, and a prefix of the sorted entries |
| WordFrequency.TopWordsSorted | examples/text-analysis-tool.ts:173-178 | the top words come in non-increasing order of count |
| WordFrequency.TopWordsFromMap | examples/text-analysis-tool.ts:173-178 | each top word is a key of the map, with its count |
| WordFrequency.TopWordsDistinct | examples/text-analysis-tool.ts:173-178 | no word appears twice |
| WordFrequency.TopWordsMaximal | examples/text-analysis-tool.ts:173-178 | no entry that was left out has a larger count than one that was taken |

## Left out

- The OpenAI client and transport are not modelled: client construction, HTTP, `tool_choice`, `response_format` and temperature. A model call is a function from the request to a reply or a fault, so the model does not decide what the model answers.
- `summarize` (src/agent.ts:191-220) is not modelled.
- The prompt texts are not modelled. The suggestion request carries the types, the budget and the text that the system prompt is built from, but not the prompt string itself.
- `JSON.parse` is a parameter. It turns a string into a JSON value or an error message. JSON text and its grammar are not modelled.
- Tool bodies (`execute`) are a parameter. A tool returns its output or the message of the error it throws. A thrown value without a `message` is not modelled.
- `async`/`await` is not modelled. Calls are sequential. Configuring the agent while a run is in progress is not modelled.
- `console.warn` and `console.error` logging is not modelled.
- Conversation.RunIgnoresObservers: observers that mutate what they receive are not modelled. The code hands them live objects: the history array (src/agent.ts:90), the raw response (src/agent.ts:100), the parsed arguments that are also passed to `execute` (src/agent.ts:135-137) and the thrown error (src/agent.ts:144). The model treats each payload as a snapshot, and an observer can only return or throw.
- The contents of `...params` go into the request as a separate parameter map. A default parameter named `model`, `messages` or `tools` overriding those request fields is not modelled.
- Conversation.RunOutcome: `maxTurns` is an integer. A fractional `maxTurns`, which JavaScript would allow, is not modelled.
- Suggestions.ShapeSpec: how a number is written out by `String(...)` is the parameter `showNumber`. JSON numbers are exact reals, so NaN and -0 do not arise.
- TextAnalysis.Letters: `toLowerCase` is modelled only for the characters whose lower case contains a letter a-z, because every other character is removed afterwards.
- WordFrequency.CalculateWordFrequency: the tokenising regular expression `/\b[a-z']+\b/g` and the lower-casing before it are not modelled. The method takes the token list.
- Outside the tool's helper functions, nothing in the text-analysis tool is modelled:
  - the Flesch formulas and their interpretation (floating point);
  - the tool's `execute`;
  - the report string it builds.
- The other example tools, the command-line scripts, the website, `update-*.js` and `src/index.ts` (re-exports) are not part of this model.
