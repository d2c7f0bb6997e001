# RawAGI core in Dafny

This project models the core of RawAGI, a terminal assistant that sends a user query to one of four agents (code, research, reasoning, general). Each agent runs a tool-calling conversation with a language model.

The model covers five parts of the program:

- **The conversation loop** (`agent.ts`). `createChat` is the class `Agent.ChatSession`. Its `messages` field persists across `Chat` calls, and `runAgent` is `Agent.RunAgent`. Both run the same bounded loop, the method `Agent.Converse`. That method is proved equal to the recursive specification `Agent.Loop`, and the loop's properties are proved as lemmas about `Loop`. The loop takes its outside world as parameters (the `Agent.Env` record):
  - the language model, a function from the conversation sent to the reply (a list of choices or an HTTP failure);
  - `JSON.parse`, a partial decoder from the argument text to a JSON value (`Tools.Json`: null, booleans, numbers, strings, arrays, objects), returning an `Option`;
  - the tool registry, a map from tool name to a handler that returns text or fails.
- **The error sanitiser of `callLLM`** (`LlmClient`). It masks `sk-` keys, then `"api_key"` fields, then cuts the text to 200 characters. It also builds the `API error (<status>): …` message.
- **The keyword router** (`Router`). The eighteen regular expressions take three shapes: a literal alternation, an end-anchored extension, and "`file` followed later on the same line by an extension". `Route` is the first-match classifier over the priority order code, research, reasoning, falling back to general.
- **Profile assembly** (`Agents`). This covers the order-preserving tool-subset filters, the agents table, and `getAgentSystemPrompt`.
- **Tool-side formatting** (`Tools`) and **history rendering** (`History`).
  - `Tools` covers the schema catalogue and the handlers' argument destructuring (`{ thought = "" }` throws on `null`, and `thought.slice` throws unless the value is a string or an array). It also covers printing a value in a template literal, which throws for a parsed object with its own `toString` key and for an array holding one (`Tools.Printable`). It also covers `web_search`'s early returns and its output-building loop.
  - `History` covers the rendering of rows in `searchHistory`.

`Text` holds the string primitives the source takes from JavaScript:
- `includes` and end-anchored matching;
- `toLowerCase`;
- `trim`, with the JavaScript white-space set;
- `slice`;
- `join`;
- decimal formatting of numbers.

`Wrappers` holds `Option` and `Result`.

Tool-level failures are not absorbed. Neither the `JSON.parse` at agent.ts:147/239 nor the `await handler(toolArgs)` at agent.ts:171/257 is caught, so both escape the call. In `chat`, the console line at agent.ts:150-154 reads the decoded arguments before the handler is looked up. Reading or printing its `thought.slice(0, 100)` or `toolArgs.query` throws the same way, which the model's `ArgumentTypeError` stands for. The model therefore returns `Err(BadArguments(…))` or `Err(ToolFailed(…))`, and the tool turns already pushed stay in the history. `JSON.parse` runs before the registry lookup, so an unknown tool name with undecodable arguments is a decode error, not an unknown-tool reply.

## Model

| member | source | states |
|---|---|---|
| Agent.FinalAnswer | agent.ts:185-194 | The answer is never empty. It is the turn's content when that content is present and non-empty, otherwise "No response". |
| Agent.UnknownToolCall | agent.ts:147-168 | Suppose a tool name is not in the registry. With decodable arguments, the call yields exactly `Error: Unknown tool "<name>"` as a tool reply, not an error, except in `chat` for the names `think` and `web_search`, whose console line (agent.ts:150-154, `LogThrows`) can throw first, as it does on `null` arguments. With undecodable arguments, it is the decode error. |
| Agent.RunToolCallsShape | agent.ts:144-183 | Processing one turn's tool calls appends one tool message per call, in call order, each carrying its call's id and its handler's reply, up to the first call that fails. There is no error exactly when every call was answered. When there is an error, it is the failure of the first call left unanswered. |
| Agent.DispatchToolCalls | agent.ts:146-180 | The in-place loop over the tool calls only appends to the history. What it appends, and the error it stops with, are exactly those of the specification `RunToolCalls`. |
| Agent.Converse | agent.ts:120-197 | The bounded iteration loop gives exactly the specification `Loop`: the reply or error, the final history, and the sequence of conversations sent to the model. |
| Agent.LoopGrows | agent.ts:109-197 | The loop only appends: the starting history is a prefix of the final one and of every conversation sent. Each conversation sent is itself a prefix of the final history. There are at most `maxIterations` model calls. With one or more iterations, the first call is sent exactly the starting history. |
| Agent.LoopAfterRounds | agent.ts:120-183 | After `n` tool rounds, the loop has used `n` model calls and continues as a fresh loop would from the history those rounds produced, with `n` fewer iterations. |
| Agent.LoopExhausts | agent.ts:120-197 | If the model answers every round with tool calls, the loop returns the give-up sentinel after exactly `maxIterations` model calls, never one more. With zero iterations it makes no call. |
| Agent.LoopStopsAfter | agent.ts:144-194 | `n` tool rounds followed by a turn without tool calls end the loop with that turn's answer after exactly `n + 1` model calls. The history left behind is the one those rounds produced (each assistant turn followed by its tool turns in call order) with the final assistant turn appended. |
| Agent.LoopFailsAfter | agent.ts:120-183 | After `n` tool rounds, a non-ok status on the next call gives the `API error` message and no choice gives the no-response error, each leaving the history of those rounds. A tool call of the next turn that escapes gives its error, leaving that history plus the turn and the tool turns answered before it. Each case makes exactly `n + 1` model calls. |
| Agent.NextCallSeesToolTurns | agent.ts:142-183 | After a tool round, the next model call is sent the previous history, the assistant turn, then one tool message per call. The tool messages come in call order, each linked to its call's id. |
| Agent.ChatSession.constructor | agent.ts:104-111 | A new session's history is exactly the system message built from the prompt. The iteration bound defaults to 25. |
| Agent.ChatSession.Chat | agent.ts:113-198 | Each call appends one user message and then runs the loop on the stored history. The system message stays first. The new history extends the old one plus the user message. The reply is the loop's, with "Reached max iterations." as the give-up text. There are at most `maxIterations` model calls. |
| Agent.RunAgent | agent.ts:203-282 | The one-shot loop starts from exactly `[system, user]` and uses "Agent reached maximum iterations without a final answer." as the give-up text. There are at most `maxIterations` model calls, and the first call sees exactly `[system, user]`. With zero iterations it returns the give-up text. The iteration bound defaults to 10. |
| LlmClient.MaskKeysLeavesNoKey | agent.ts:91 | After masking, no `sk-` is followed by a letter or digit other than the `***` mask, so no live key is left. |
| LlmClient.MaskKeysKeepsClean | agent.ts:91 | Text without a live key is left unchanged by masking. |
| LlmClient.MaskKeysIff | agent.ts:91 | Masking leaves text unchanged exactly when it holds no live key. Masking twice is the same as masking once. |
| LlmClient.MaskKeysPrefix | agent.ts:91 | Text before the first live key is copied unchanged, and masking carries on from there. |
| LlmClient.KeyRun | agent.ts:91 | A match is `sk-` followed by a run of at least one letter or digit, taken greedily: the character after the run, if any, is neither. |
| LlmClient.MaskKeysFirst | agent.ts:91 | The first live key, with its whole run, becomes exactly `sk-***`. The text before it is kept, and masking resumes right after the run. |
| LlmClient.MaskFieldsPrefix | agent.ts:92 | Text before the first `"api_key"` field is copied unchanged, and masking carries on from there. |
| LlmClient.FieldAtIff | agent.ts:92 | A field is found exactly where `"api_key"`, white space, a colon, white space and a double-quoted value without inner quotes occur, and its length is that of this whole match. |
| LlmClient.MaskFieldsFirst | agent.ts:92 | The first field is replaced as a whole by exactly `"api_key": "***"`. The text before it is kept, and masking resumes right after its closing quote. |
| LlmClient.MaskFieldsKeepsNoKey | agent.ts:91-92 | Masking the `"api_key"` fields cannot bring a live key back. |
| LlmClient.MaskFieldsKeepsPlain | agent.ts:92 | Text with no `"api_key": "…"` field anywhere is left unchanged. |
| LlmClient.SanitizeIsSafe | agent.ts:91-93 | The sanitised body has at most 200 characters and holds no live `sk-` key. |
| LlmClient.SanitizeKeepsPlain | agent.ts:91-93 | A body of at most 200 characters with no key and no `"api_key"` field passes through unchanged. |
| LlmClient.ApiErrorMessageShape | agent.ts:88-94 | The thrown message opens with `API error (<status>): ` and ends with the sanitised body. It is at most 200 characters longer than that opening. |
| Router.MatchesSomeIff | router.ts:39-58 | A category's pattern loop succeeds exactly when some pattern of its list matches. |
| Router.LaterOnSameLineIff | router.ts:14 | The `.*(…)` tail matches exactly when one of the extensions starts at some position with no line terminator before it. |
| Router.FollowedFromIff | router.ts:14 | The `file.*\.(…)` pattern matches exactly when "file" occurs somewhere and an extension starts later on the same line. |
| Router.RouteSpec | router.ts:36-62 | The route is code iff a code pattern matches the lower-cased query. It is research iff no code pattern and some research pattern matches. It is reasoning iff neither earlier category matches and a reasoning pattern does. It is general iff none of the three matches. General's empty list never matches. |
| Router.RouteIgnoresCase | router.ts:37 | Queries with the same lower-case form route alike, and a query routes like its lower-case form. This includes the extension pattern without the `i` flag. |
| Router.ExplainWhyGoesToResearch | router.ts:21-27 | A query containing "explain why" and no code keyword routes to research, because research's "explain" is tried before reasoning's "explain why". |
| Router.MatchNeedsKeyword | router.ts:8-34 | No pattern matches unless one of its literal keywords occurs in the text. |
| Router.PatternOffParts | router.ts:8-34 | A pattern cannot match space-joined words when each of its keywords starts with a space-free stem that none of the words contains. |
| Router.CodeOffParts | router.ts:9-16 | Space-joined words that contain no code stem match no code pattern. |
| Router.ResearchOffParts | router.ts:17-24 | Space-joined words that contain no research stem match no research pattern. |
| Router.ReasoningOffParts | router.ts:25-32 | Space-joined words that contain no reasoning stem match no reasoning pattern. |
| Router.RouteBuildWebsite | router.ts:9-44 | "build me a website with html and css" routes to code. |
| Router.RouteWriteArticle | router.ts:36-51 | "write an article explaining the latest AI news" matches a research pattern and still routes to code, because code comes first. |
| Router.RouteCapitalOfFrance | router.ts:36-51 | "what is the capital of France" routes to research. |
| Router.RouteProsAndCons | router.ts:36-58 | "compare the pros and cons of X vs Y" routes to reasoning. |
| Router.RouteHelloThere | router.ts:33-62 | "hello there" matches no pattern and falls back to general. |
| Agents.FilterKeepsOrder | agents.ts:11-19 | A filtered subset is a subsequence of the catalogue, in its order. It holds exactly the catalogue's schemas whose name is allowed. Allowing every name gives the catalogue back. |
| Agents.ToolSubsets | agents.ts:10-19 | `fileTools` is `[read_file]`, `researchTools` is `[think, web_search]`, `minimalTools` is `[think]`, and `allTools` is the whole catalogue. |
| Agents.AgentTools | agents.ts:248-277 | Research uses the research subset, code the file subset, reasoning the minimal subset and general all tools. Every agent's tools keep the catalogue order. |
| Agents.SystemPromptLayout | agents.ts:238-245 | The assembled prompt starts with the agents table's prompt for the same key, followed by the memory section and then the Bun-reference section. With blank memory and a blank reference it is that prompt alone. |
| Agents.MemorySectionShape | agents.ts:231-233 | The memory section is empty iff the memory is all white space. Otherwise it is the header, the trimmed memory and a newline, and the trimmed memory neither starts nor ends with white space. |
| Agents.BunRefSectionShape | agents.ts:234-236 | The same holds for the Bun-reference section and its fixed header. |
| Tools.ToolSchemasShape | tools.ts:7-67 | The catalogue is exactly `think`, `web_search`, `read_file`, in that order. Each has one required string parameter: `thought`, `query` and `path` respectively. |
| Agent.ThinkCall | tools.ts:74-80 | With the registry's handlers, a `think` call answers "Strategy noted. Continue with your plan." exactly when two things hold. First, its arguments decode to something other than `null` whose `thought`, if present, is a string or an array whose first 80 elements print. Second, in `chat`, the console line (agent.ts:150-152) does not throw first on a truthy thought whose first 100 elements do not print. Otherwise the call throws. |
| Agent.ChatThinkPrints | agent.ts:150-152 | In `chat`, a `think` call whose thought is a string or an array that prints in full gets past the console line and the handler, and answers with the fixed reply. |
| Tools.WebSearchNeedsKey | tools.ts:82-88 | Without an API key, the reply does not depend on the search service, so no request is made. It is the missing-key message, except that `null` arguments, or a `query` that does not print in the log line at tools.ts:83, throw first. |
| Tools.WebSearch | tools.ts:82-127 | The handler's output-building loop gives exactly the specification `WebSearchReply`. That is a throw for `null` arguments or a `query` that does not print, the missing-key message, `Search error (<status>): <body>` for a rejected request, or the summary followed by the result blocks. |
| Tools.SliceShowsShorter | tools.ts:75 | If a slice of a value prints, every shorter slice prints too. So what `chat`'s console line shows of a thought (100 elements) covers what the handler prints (80). |
| Tools.NonPrintingArgsThrow | tools.ts:74-131 | Each handler throws when its argument holds an object with its own `toString` key: `think` with `{"thought":[{"toString":0}]}`, `web_search` with `{"query":{"toString":0}}` before the key check, and `read_file` with `{"path":{"toString":0}}` before its `try`. |
| Tools.SnippetShape | tools.ts:118-120 | A snippet is the whole content when it has at most 300 characters, otherwise its first 300 characters plus "...". It is never longer than 303. |
| Tools.SummaryIff | tools.ts:113-115 | The output starts with "Summary: " iff the answer is present and non-empty, and then it is `Summary: <answer>` followed by a blank line and the blocks. |
| Tools.ResultBlocksAppend | tools.ts:117-124 | Rendering the results of two lists one after the other is rendering each list and concatenating the two. |
| Tools.ResultBlocksInOrder | tools.ts:117-124 | The k-th result's block sits after the blocks of all earlier results and before those of all later ones. |
| Tools.ResultBlocksStart | tools.ts:117-124 | The blocks are empty iff there are no results, and otherwise they start with "Title: ". |
| Tools.RegistryMatchesSchemas | tools.ts:73-138 | The handler registry has a handler for exactly the names in the schema catalogue. |
| History.RenderHistoryEmptyIff | db.ts:31-35 | The reply is "No matching research found." exactly when there are no rows. |
| History.RenderHistorySingle | db.ts:33-35 | A single row renders as its entry numbered 1. |
| History.RenderHistoryAppend | db.ts:33-35 | One more row adds a blank line and that row's entry, numbered one past the previous count, after the earlier entries. |
| History.EntryNumber | db.ts:34 | An entry opens with `[`, its number in decimal digits, `] ` and the timestamp. The digits read back as the number. |
| History.AnswerPartShape | db.ts:34 | The answer part is the answer when it has at most 300 characters, otherwise its first 300 characters plus "...". It is never longer than 303. |
| History.EntryTail | db.ts:34 | An entry ends with `\nSources: <sources>` when sources are non-empty, otherwise with the answer part. It always opens with its number, timestamp and credibility header. |
| Text.TrimEmptyIff | agents.ts:231-235 | `trim()` is empty iff every character is JavaScript white space, which is how a blank memory or reference is recognised. |
| Text.NatToStringRoundTrip | db.ts:34 | The decimal form of a number is non-empty, all digits, has no leading zero except for 0 itself, and parses back to the number. |

## Left out

- Network I/O is left out: the `fetch` calls in `callLLM` and `web_search`, and the HTTP response objects. The model is a function from the conversation to a reply. The search service is a function from key and query to unreachable, rejected (status and body) or found. A rejected `fetch` promise in `callLLM` is not modelled; a rejected search becomes `Err` of the handler.
- The filesystem and SQLite are left out: `Bun.file` in `read_file`, and the database set-up, inserts and the `LIKE … LIMIT 5` query. `read_file` takes a reader function, and history rendering takes its rows as input.
- `JSON.parse`/`JSON.stringify` internals are left out. Decoding is an abstract partial function to a JSON value, and numbers are exact reals rather than doubles.
- Agent.CallTool: the text of a JavaScript `TypeError` is not modelled. A throw from argument reading is `ArgumentTypeError` carrying the tool's name, and inside a handler it is a fixed `TypeError` message.
- Timing, token totals and cache percentages in the loop are left out. The token totals are integer sums (agent.ts:129-131), and the timing and percentages use the clock and floating point. All of them are only printed: no branch of the loop reads them.
- Console output is left out: logging and colours, the REPL in index.ts, and command parsing and markdown rendering.
- `async`/`await` is not modelled: every step is awaited in sequence, so the model is sequential.
- `toLowerCase` is modelled on ASCII letters only. Other Unicode case mappings are not modelled.
- Lengths and `slice` count Dafny characters (Unicode scalar values), not UTF-16 code units. Text outside the Basic Multilingual Plane is counted differently.
- The four agent prompts are abbreviated to their first line. No operation inspects their bodies.
- index.ts:132 passes the agent's tool list where `createChat` expects `maxIterations`. That JavaScript coercion and the REPL wiring are left out, and `maxIterations` is a natural number.
- `callLLM` always sends the full schema catalogue, not the agent's subset. The model function receives only the conversation, since the catalogue sent never varies.
- agents.ts:258 refers to `providers.minimax`, which providers.ts does not define, so the code agent's provider is `None`. The provider records of providers.ts are not part of this model: they are constants and environment lookups.
- The registry lookup uses a plain object, so inherited names such as `toString` would also resolve. The model's registry is a map without such names.
- `listAgents` (router.ts:64-72) is constant text and is left out.
- `read_file`'s rendering and the file reader itself are given only as the `ReadFileReply` function, with no property beyond the registry's names and the throw on a `path` that does not print.
