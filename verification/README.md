# LangGraph MCP agent: a Dafny model of its deterministic core

The repository wires a LangGraph agent to MCP (Model Context Protocol) tool
servers. Most of it is glue around LLM calls, MCP sessions over stdio and a
FAISS index. This project models the deterministic logic inside that glue and
proves properties of it:

- `mcp_proxy.dfy` (module `McpProxy`): `${NAME}` interpolation of a server's
  `env` from the process environment, and the environment a server session is
  started with. The process environment is a parameter, not `os.environ`.
- `utils.dfy` (module `Utils`): the `provider/model` split of
  `load_chat_model`, and the classification and formatting of tool errors.
  These are `extract_error_details`, `format_structured_error`,
  `format_http_error` and `format_validation_message`.
- `state.dfy` (module `QueryState`): the `add_queries` reducer of the graph
  state.
- `agent_loop.dfy` (module `AgentLoop`): the router `should_continue`, the
  status update of the model node `llm_with_mcp_tools`, and the tool fan-out
  of `execute_mcp_tool`. These exist twice in the source, in `src/main.py`
  and in `src/examples/simple_mcp_example.py`; the two copies behave the same,
  and one model serves both. The model's reply and the outcome of running a
  tool on a server are inputs.
- `wrappers.dfy`, `text.dfy`, `json.dfy`: `Option`/`Result`, the string
  operations Python provides (`in`, slicing, `lower()`, `str(int)`), and
  parsed JSON values with Python's `str()` of them.

Loops in the source stay loops here. `McpProxy.InterpolateServerEnv` fills
the interpolated env map key by key. `AgentLoop.RunToolCall` and
`AgentLoop.ExecuteMcpTool` keep the nested loops, the `tool_executed` flag and
the `break`. Each of these methods is proved against a specification
function: `Interpolate`, `CallContent`/`Tried`, and
`ExecuteResult`/`ExecuteAttempts`. The properties are proved about those
functions.

## Model

| member | source | states |
|---|---|---|
| `McpProxy.LeadingPlaceholder` | src/proxy/mcp_proxy.py:56 | The pattern `\$\{([^}]+)\}` matches at the start of a string exactly when "${" is followed by a non-'}' character and a later '}'. The match ends at the first '}', and the name is non-empty and has no '}'. |
| `McpProxy.Interpolate` | src/proxy/mcp_proxy.py:48-56 | `interpolate_env_vars`, one left-to-right pass of `re.sub`. With an empty environment every string comes back unchanged, because every placeholder is then unknown and kept. |
| `McpProxy.InterpolateKnown` | src/proxy/mcp_proxy.py:52-56 | A `${NAME}` whose NAME is a key of the env map becomes that key's value. Scanning resumes after the placeholder, so the inserted value is not scanned again. |
| `McpProxy.InterpolateUnknown` | src/proxy/mcp_proxy.py:54 | A `${NAME}` whose NAME is absent stays in the output verbatim, braces included. |
| `McpProxy.EmptyBracesKept` | src/proxy/mcp_proxy.py:56 | `${}` is not a placeholder and is copied as text. |
| `McpProxy.InterpolateNoPlaceholder` | src/proxy/mcp_proxy.py:56 | A string in which no placeholder starts anywhere comes back unchanged, whatever the environment. |
| `McpProxy.CopiesClosedPair` | src/proxy/mcp_proxy.py:56 | '$', any character, and then '}' start no match, so the three characters are copied as text. |
| `McpProxy.InterpolateSinglePass` | src/proxy/mcp_proxy.py:56 | Single pass: with A = "${B}" and B = "x", `${A}` becomes "${B}", not "x". |
| `McpProxy.ServerEnv` | src/proxy/mcp_proxy.py:64 | `server_config.get("env") or {}`. A missing or falsy env gives an empty map. A dict is used as it is. Any other truthy value raises. Both directions are stated. |
| `McpProxy.InterpolateServerEnv` | src/proxy/mcp_proxy.py:65-70 | The loop's result has exactly the keys of the server env. String values are interpolated, and other values are copied unchanged. |
| `McpProxy.MergeEnv` | src/proxy/mcp_proxy.py:75 | The merged keys are the union of both key sets. Server entries override process entries with the same key, and every other process entry keeps its value. |
| `McpProxy.SessionEnv` | src/proxy/mcp_proxy.py:61-75 | The env map handed to `StdioServerParameters`. It is an error exactly when `server_env` raises. Otherwise it is the process env overlaid with the interpolated server env, entry by entry. The later check that every value is a string is not modelled. |
| `Utils.ParseModelName` | src/utils.py:25-29 | With a '/', the provider is the '/'-free text before the first '/' and provider + "/" + model is the name. Without one, the provider is "azure" and the model is the whole name. |
| `Utils.ProviderIsFirstSegment` | src/utils.py:25-26 | When position k holds the first '/', the provider is `name[:k]` and the model is `name[k+1:]`. |
| `Utils.LaterSlashesStayInModel` | src/utils.py:26 | `maxsplit=1`: "AZURE_OpenAI/gpt-4o/mini" splits into "AZURE_OpenAI" and "gpt-4o/mini". |
| `Utils.UsesAzure` | src/utils.py:32 | "azure" and "azure_openai" take the Azure branch. Only a 5- or 12-character provider starting with 'a' or 'A' can take it. |
| `Utils.BareNameUsesAzure` | src/utils.py:27-32 | A name without '/' takes the Azure branch, and its model is the whole name. |
| `Utils.ProviderTestIgnoresCase` | src/utils.py:32 | The Azure test lower-cases the provider, so "AZURE_OpenAI" and "Azure" take the Azure branch. |
| `Utils.AgentModelIsNotAzure` | src/main.py:87 | The name the agent node asks for, "openai/gpt-4o-mini", parses to provider "openai" and does not take the Azure branch. |
| `Utils.HttpBaseMessage` | src/utils.py:132-141 | The `error_messages` table and its default. The first letter is the code's own (`Initial`). The text starts with "HTTP " exactly when the code is not one of the six in the table. |
| `Utils.HttpBaseMessageInjective` | src/utils.py:132-141 | Different status codes get different base messages. The six fixed texts differ from each other and from every "HTTP {code} Error". |
| `Utils.FormatHttpError` | src/utils.py:141-147 | The result is the base message, then ". " if the content mentions "request_id" and ": " otherwise. Then come a prefix of the content of min(length, 200 or 150) characters and "...". |
| `Utils.FormatHttpErrorInjective` | src/utils.py:120-147 | The same content reported under two different codes gives two different texts. |
| `Utils.FormatValidationMessage` | src/utils.py:160-168 | It raises exactly for a number, boolean or null message, or a dict message keyed by the marker. On a "body.children[0]" hit the result is the Notion block text with the first 200 characters of a string message. Otherwise it is exactly "Validation Error ({status}): {message}". |
| `Utils.FormatStructuredError` | src/utils.py:106-117 | A "validation_error" code gives exactly `format_validation_message(message, status)`, and only that path can raise. Otherwise, an error whose `object` is "error" reads "API Error (status): message" and anything else "Error (status): message". Status defaults to "unknown", code to "unknown_error", and the message to `str(error_data)`. |
| `Utils.Category` | src/utils.py:59-89 | The priority chain. "Unexpected" is chosen exactly for a non-ToolException. A structured kind is chosen exactly when a ToolException's content parses to a JSON object. A pattern kind is chosen exactly when it does not. |
| `Utils.StructuredCategory` | src/utils.py:66-87 | For a JSON object: the formatting fails exactly when the code is "validation_error" and the message makes the validation formatter raise. "API Error" is chosen exactly for a non-validation error object, and plain "Error" for any other object. |
| `Utils.TextCategory` | src/utils.py:73-82 | The patterns are tried in priority order, and each kind is given with an if-and-only-if. "validation_error" in the lower-cased content comes first. Next is "400 bad request" in the lower-cased content. Next is "401", and then "404", each matched case-sensitively. The generic text is chosen exactly when none of the four occurs. |
| `Utils.ExtractErrorDetails` | src/utils.py:59-89 | A non-ToolException gives "Unexpected error during tool execution: …". A failed structured formatting gives "Tool execution failed: …". Any other JSON object gives exactly the structured formatter's text. |
| `Utils.PatternReports` | src/utils.py:73-84 | Content that is not a JSON object has a report for each pattern. "validation_error" (case-insensitive) gives the first 300 characters. "400 bad request" (case-insensitive), "401" and "404" give the HTTP formatter for 400, 401 and 404. Anything else gives "Tool execution error: …". |
| `Utils.ReportNamesItsCategory` | src/utils.py:59-89 | The report's leading text determines which branch of the chain produced it. |
| `QueryState.AddQueries` | src/state.py:17 | The length is `len(e) + len(n)`. `e` comes first in its order, then `n` in its order. |
| `QueryState.AddQueriesIdentity` | src/state.py:17 | `add_queries(e, [])` is `e`, and `add_queries([], n)` is `n`. |
| `QueryState.AddQueriesAssociative` | src/state.py:17 | The reducer is associative. |
| `QueryState.ReduceAppendsAll` | src/state.py:41 | Reducing successive updates into `queries` appends all of them in order. |
| `QueryState.ReduceInBatches` | src/state.py:41 | Reducing two batches of updates one after the other equals reducing them together. |
| `AgentLoop.ShouldContinue` | src/main.py:204-222 | END for no messages. "execute_tools" exactly when the last message has tool calls. "llm_with_tools" exactly when it is a ToolMessage. END otherwise. |
| `AgentLoop.RouteDependsOnlyOnLast` | src/examples/simple_mcp_example.py:231-251 | Only the last message decides the route. |
| `AgentLoop.LlmWithMcpTools` | src/main.py:72-119 | No messages, or a failed model call, gives status "error" with the state otherwise unchanged. Otherwise the reply is appended at the end. The status becomes "calling_tool" exactly when the reply has tool calls, and "ready" exactly when it has none. |
| `AgentLoop.LlmStatusAgreesWithRoute` | src/examples/simple_mcp_example.py:126-141 | After an answer, "calling_tool" holds exactly when the router executes tools and "ready" exactly when it ends. An answered state never routes back to the model. |
| `AgentLoop.CallContent` | src/main.py:155-187 | A call's content is the failure text or the output of one of the configured servers. |
| `AgentLoop.Tried` | src/main.py:156-177 | The servers tried for a call are a prefix of the configured servers, in order: at least one when any is configured, and never more than all. |
| `AgentLoop.ToolMessages` | src/main.py:146-189 | There is one tool message per call, and the i-th carries the i-th call's id. |
| `AgentLoop.FirstSuccessWins` | src/examples/simple_mcp_example.py:183-204 | If server k is the first to succeed in configuration order, its output is the content. Exactly servers 0..k are tried, and none after. |
| `AgentLoop.AllServersFail` | src/main.py:180-187 | If every server fails, or none is configured, the content is "Error: Tool {name} could not be executed" and every server is tried once. |
| `AgentLoop.ToolMessageForEachCall` | src/main.py:146-189 | There is one ToolMessage per tool call, in call order. The i-th carries the i-th call's id and content. |
| `AgentLoop.ExecuteResult` | src/examples/simple_mcp_example.py:155-166 | With no messages, or no tool calls in the last one, the status is "error" and the messages are unchanged. Otherwise the status is "ready" and the old messages are kept as a prefix. |
| `AgentLoop.ExecuteAppendsOneMessagePerCall` | src/examples/simple_mcp_example.py:172-224 | Exactly one message per call follows the old messages, each answering its call. The router then returns "llm_with_tools". |
| `AgentLoop.RunToolCall` | src/main.py:155-187 | The inner loop's content is the first success's output, or the failure text. The servers it calls are those `Tried` gives. |
| `AgentLoop.ExecuteMcpTool` | src/main.py:122-201 | The node's loop yields the state `ExecuteResult` describes. It calls `apply` exactly on the servers that `ExecuteAttempts` lists, in order. |
| `AgentLoop.AsWrittenRoutesAnsweredStates` | src/main.py:234-241 | On the success path the written path map is enough: every answered state has a next node. |
| `AgentLoop.AsWrittenPathMapMissesToolRoute` | src/main.py:234-241 | A model failure right after a tool step routes to "llm_with_tools". That route is missing from the written path map, so the graph has no next node. |
| `AgentLoop.PathMapCoversEveryRoute` | src/examples/simple_mcp_example.py:246-248 | With "llm_with_tools" mapped to the model node, as the router's comment intends, every state leaving the model node has a next node, and the route back to the model leads to the model node. |
| `AgentLoop.PathMapResumesAfterFailedToolStep` | src/examples/simple_mcp_example.py:246-248 | With the corrected path map, a model failure right after a tool step leads back to the model node. |

## Findings

| source | as written | input that shows it | evidently intended | confidence | as-written member | corrected member |
|---|---|---|---|---|---|---|
| src/main.py:234-241 | The conditional edges of the model node map only "execute_tools" and END; src/examples/simple_mcp_example.py:265-272 has the same map. `should_continue` can also return "llm_with_tools" (src/main.py:218-219). | Messages `[Human, AI(tool_calls=[c]), Tool(c.id, …)]` after a tool step, then a model call that raises. The node returns the state unchanged with status "error" (src/main.py:117-119), and the router returns "llm_with_tools". | The path map covers every value the router returns, and "llm_with_tools" leads back to the model node, as the router's comment says (src/examples/simple_mcp_example.py:246). | medium, not executed | `AgentLoop.AsWrittenPathMapMissesToolRoute` | `AgentLoop.PathMapCoversEveryRoute`, `AgentLoop.PathMapResumesAfterFailedToolStep` |

## Left out

- Session start-up in `apply` is not modelled: the stdio client, the `ClientSession`, and the `server_config["command"]`/`["args"]` lookups. These are process I/O.
- `SessionEnv` keeps non-string values of the server env, as the loop at src/proxy/mcp_proxy.py:65-70 does. The validation by `StdioServerParameters` that every env value is a string (src/proxy/mcp_proxy.py:72-76, inside the mcp library) is not modelled. A config with such a value fails there and not in the model.
- `RunToolCall`, `ExecuteMcpTool`: running a tool is a pure function `run` of the server, the tool name and the arguments. Every `apply` opens a fresh session and tools can have effects (src/main.py:159-164). In the model, two identical calls in one message get the same outcomes on every server. Per-attempt variation and tool side effects are not modelled.
- `discover_mcp_servers` is not modelled: it reads a file and starts MCP server sessions (src/main.py:19-63). The servers are given as a sequence in configuration order.
- `RunTool` and `GetLangChainTools` are foreign MCP calls. Running a tool on a server is the parameter `run`, which returns the output or the exception.
- Model construction in `load_chat_model`, prompt formatting and the model call are left out. The reply, or its failure, is an input.
- `log_tool_execution` and every `print`/`logger` call are left out: they are side effects with timestamps.
- `json.loads` is left out. Its result is an input, `None` when it raises. JSON floats are not modelled; numbers are integers.
- Python's `str()` of a JSON list or dict (quoting, key order) is the parameter `repr`. `str()` of strings, integers, booleans and None is modelled exactly.
- `lower()` is modelled as ASCII case folding. Python's `lower()` also folds non-ASCII letters; the needles searched for are all ASCII.
- In `format_structured_error`, the non-dict branch (src/utils.py:103-104) is left out. Its only caller passes a dict, and the model's input is one.
- In `extract_error_details`, exceptions raised other than by the structured formatters are not modelled. An example is a `json.loads` recursion error, which would also end in "Tool execution failed".
- Whether an exception is a `ToolException` (a test on the class name) is a boolean of the exception.
- In both agent nodes, exceptions from the nodes' own bookkeeping are not modelled. An example is a tool call without a "name", "args" or "id" key, or with non-dict args. The model's `ToolCall` always has these fields, and its args are a map.
- The graph state's other fields (`available_tools`, `server_manager`) are not modelled. `{**state, …}` leaves them untouched.
- `InterpolateServerEnv` takes the keys in an unspecified order, where Python uses insertion order. Its result does not depend on the order.
- LangGraph's execution of the graph is not modelled, apart from the lookup of the router's value in the path map (`NextAfterLlm`).
- `src/retriever.py`, `src/build_router_graph.py` and `src/notion_mcp_tools_example.py` are left out: they are FAISS and file I/O, asynchronous fan-out over MCP sessions, and session plumbing. `src/examples/simple_mcp_state.py` holds only a TypedDict; its status literals are the `Status` datatype.
- `add_queries` returns a fresh list and leaves its inputs untouched. Dafny sequences are values, so this holds by construction and is not stated separately.
