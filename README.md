# arcee-cli-demo: the MCP.run client and the Trello commands, in Dafny

This project models the decision logic of two Python files of the arcee-cli demo.

- `mcprun_client.py`: the `MCPRunClient` that talks to MCP.run. At construction it settles on a session id, taken from an explicit argument or from the `mcp_session_id` entry of `~/.arcee/config.json`. It then lists the session's tools (`get_tools`) and runs a named tool (`run_tool`). `configure_mcprun` defaults a session id.
- `trello_commands.py`: a stub `MCPRunClient.run_tool` that answers with fixed Trello data, and the two commands `listar-listas` and `listar-cards`. They turn the stub's answer into table rows, stop on an answer holding `"error"`, default the list id to `list1` and cut long card descriptions to 50 characters plus `...`.

The outside world becomes plain inputs:

- The config file is a `ConfigFile`: `Missing`, `Unreadable(reason)` (a read or JSON-parse error) or `Loaded(document)`.
- Each HTTP request's fate is an `HttpOutcome`: a `Response(status, text, body)`, where `body` is either the value `response.json()` returns or the message it raises with, or a `TransportFailure(message)`.
- `get_tools` and `run_tool` return a `Reply`. It holds the request the client issued (`HttpGet(url)` / `HttpPost(url, json)`, or none) and the value the Python method returns.

JSON values (`JsonValues.Json`) are None, bool, int, str, list and dict. The module also gives the bits of Python the code relies on: truthiness, `dict.get`, `str()` and the `AttributeError` text of `.get` on a non-dict.

Files: `JsonValues.dfy`, `McpRun.dfy` (mcprun_client.py), `TrelloCommands.dfy` (trello_commands.py).

Some behaviours of the code worth knowing:

- Without a session, `run_tool` returns the error text `"ID de sessão MCP.run não configurado"`.
- `run_tool` sends any tool name, the empty one included; it checks nothing about it.
- A config document that is valid JSON but not a dict makes `config.get` raise. The constructor catches that, and the session keeps the argument's value.
- A 200 body that parses but is not a dict makes `.get` raise. `get_tools` then returns `[]`. `run_tool` returns an `error` record with the `AttributeError` text.

## Model

| member | source | states |
|---|---|---|
| McpRun.ResolveSession | mcprun_client.py:28-40 | A truthy explicit id is the session verbatim. Otherwise a loaded dict config gives its `mcp_session_id` entry, or None when the key is missing. A missing file, a read or parse error, or a non-dict document leaves the argument's value. Construction never fails. |
| McpRun.SessionProvenance | mcprun_client.py:28-38 | Every truthy session is either the explicit argument or the config dict's `mcp_session_id` value. |
| McpRun.ExplicitSessionIgnoresConfig | mcprun_client.py:32 | With a non-empty explicit id, the config file's content makes no difference to the session. |
| McpRun.McpRunClient.constructor | mcprun_client.py:20-44 | Sets the session field as `ResolveSession` says and keeps the base URL. The config file is consulted only after the argument proved falsy. No method changes the field afterwards. |
| McpRun.OutcomeClassification | mcprun_client.py:56-70 | Every HTTP outcome is exactly one of three things: a 200 response with a dict body, an exception (transport error, unparsable 200 body, or a non-dict 200 body), or a non-200 response. |
| McpRun.McpRunClient.GetTools | mcprun_client.py:46-70 | Without a session it issues no request and returns `[]`. Otherwise it sends one GET to `{base}/session/{sid}/tools`. A 200 dict body gives its `tools` entry unchanged, or `[]` when that key is missing. Every other outcome gives `[]`, never an error record. |
| McpRun.McpRunClient.RunTool | mcprun_client.py:72-107 | Without a session it issues no request and returns exactly `{"error": "ID de sessão MCP.run não configurado"}`, whatever the tool and params. Otherwise it sends one POST to `{base}/session/{sid}/tool/{name}/run` with body `{"params": params}`, where `params` that is None, whether passed or omitted, becomes `{}`. A 200 dict body gives its `result` entry unchanged, or `{}`. A non-200 response gives exactly the keys `error` (status and text embedded) and `raw_output` (the text). An exception gives `error` alone, carrying the exception's message. |
| McpRun.ListAbsorbsInvokeSurfaces | mcprun_client.py:53-107 | On the same outcome, with no session or without a 200 dict body, listing returns `[]` while invoking returns a record with an `error` key. |
| McpRun.StatusErrorRoundTrip | mcprun_client.py:101-103 | The `error` text of a non-200 reply embeds the status code and the response text so that both can be read back from it exactly. |
| McpRun.ToolRunUrlInjective | mcprun_client.py:91 | When neither the session nor the tool name contains '/', the tool-run path determines both of them. |
| McpRun.ToolRunUrlCollision | mcprun_client.py:91 | Nothing is escaped: session `x/tool/y` with tool `z` and session `x` with tool `y/tool/z` share one path. |
| McpRun.ToolsUrlDiffersFromToolRunUrl | mcprun_client.py:58 | For every base, session and tool name, the list path never equals a tool-run path: one ends in `tools`, the other in `run`. |
| McpRun.ConfigureMcpRun | mcprun_client.py:110-122 | Returns the given id when it is non-empty, else `"demo-session-id"`. The result is never empty. |
| McpRun.ConfigureMcpRunIdempotent | mcprun_client.py:122 | Configuring an already configured id changes nothing. |
| McpRun.ConfiguredClientHasSession | mcprun_client.py:122 | A client built from a configured id has that id as a truthy session, whatever the config file holds. |
| JsonValues.NatToString | mcprun_client.py:101 | `str()` of a non-negative int is a non-empty run of decimal digits without leading zeros: it starts with '0' exactly for 0, and then is `"0"`. |
| JsonValues.DigitsValueOfNatToString | mcprun_client.py:101 | Reading back the digits `str()` wrote gives the same number. |
| JsonValues.NatToStringInjective | mcprun_client.py:101 | Different status codes print differently. |
| JsonValues.PyStr | mcprun_client.py:58 | What an f-string or `str()` makes of a value: a str is itself. An int is its canonical decimal digits (non-empty, no leading zeros, `"0"` for 0), which read back to it, with a leading '-' when negative. |
| TrelloCommands.MockRunTool | trello_commands.py:34-56 | `get_lists` answers the three fixed lists for any params. `get_cards_by_list_id` answers the three fixed cards exactly when `listId` is `"list1"`, and `{"cards": []}` otherwise. Any other name answers a record holding only `error`. The answer holds `"error"` exactly for unknown names. |
| TrelloCommands.GetListsIgnoresParams | trello_commands.py:37-44 | The stub's `get_lists` answer is the same for every params. |
| TrelloCommands.Truncate | trello_commands.py:124 | A description of at most 50 characters is kept. A longer one becomes its first 50 characters plus `...`, exactly 53 characters long. The result never exceeds 53 characters and always starts with the first min(50, len) characters of the description. |
| TrelloCommands.TruncateIdempotent | trello_commands.py:124 | Truncating a truncated description changes nothing. |
| TrelloCommands.TruncateFixedPoints | trello_commands.py:124 | A description is shown unchanged exactly when it has at most 50 characters, or has 53 characters and ends in `...` after the 50th. |
| TrelloCommands.ListRow | trello_commands.py:84-89 | A list entry gives a row exactly when it is a dict whose id and name are each missing, a str or None. A missing id or name shows `N/A`; a present one shows as its cell text (a str as itself, None as empty). The card count is `str()` of the entry's value, `0` when missing. A well-formed entry shows its own id, name and count. |
| TrelloCommands.CardRow | trello_commands.py:120-125 | A card entry gives a row exactly when it is a dict whose id and name are each missing, a str or None, and whose description is missing or a str. A missing id or name shows `N/A`; a present one shows as its cell text. A missing description shows empty; a present one is shown truncated. A well-formed card shows its id, name and truncated description. |
| TrelloCommands.Entries | trello_commands.py:84 | What the `for` loop over the answer's entries sees: a list gives its items, an empty str or an empty dict gives none, and every other value (None, a bool, an int, a non-empty str or dict) raises before any row is added. |
| TrelloCommands.AddRows | trello_commands.py:84-89 | Builds one row per entry, in the entries' order. It succeeds exactly when every entry's row can be built. |
| TrelloCommands.ShowTable | trello_commands.py:71-91 | An answer holding `"error"` shows that error and no table. Otherwise the table has the given title and one row per entry under the key (none when the key is missing), in order, unless a row raises. |
| TrelloCommands.ListListsCommand | trello_commands.py:64-91 | `listar-listas` shows the three stub lists as rows `list1/Tarefas/3`, `list2/Em Progresso/2` and `list3/Concluído/5`, in that order. |
| TrelloCommands.CardsListId | trello_commands.py:108 | A missing or empty list id becomes `list1`. A given one is kept. |
| TrelloCommands.ListCardsCommand | trello_commands.py:97-127 | `listar-cards` asks the stub for the defaulted list id and titles the table with that same id. `list1` shows the three cards in order. Any other id shows an empty table. |
| TrelloCommands.SampleCardRows | trello_commands.py:48-54 | The stub's cards have short descriptions, so each card's row shows its description uncut. |

## Left out

- HTTP: the real calls through `requests.get`/`requests.post` (mcprun_client.py:57-60, 90-94) are network I/O. Their result is the `HttpOutcome` input, and the headers are not modelled.
- File system: expanding `~/.arcee/config.json`, checking it exists, opening it and parsing it (mcprun_client.py:33-37). The result is the `ConfigFile` input.
- All logging (mcprun_client.py:40, 44, 66, 69, 102, 106; trello_commands.py:67, 94, 102, 130) is a side effect with no behavioural contract.
- Exception messages: the text of a transport exception or a JSON parse error is an opaque input string. Only the `AttributeError` text of `.get` on a non-dict is spelled out.
- UI: Typer command registration, Rich console and table styling, column headers, and `print` (trello_commands.py:20-26, 79-82, 91, 116-118, 127). A command's output is reduced to `Shown`: the error it printed, the table's title and rows, or `Failed` for an exception it caught and printed. That message is not modelled.
- Both `__main__` demo blocks (mcprun_client.py:125-136; trello_commands.py:133-134) are example I/O only.
- The stub class's constructor (trello_commands.py:31-32) stores a session id that its `run_tool` never reads. The dispatcher is modelled as the module-level function `MockRunTool`, and `get_agent` (trello_commands.py:60-61) is folded into the commands.
- MockRunTool: `params` is a dict. A non-dict `params` would make the `get_cards_by_list_id` branch raise, but no caller passes one.
- PyStr: a list or dict is rendered as the placeholder `[...]` or `{...}`, not as Python's repr. This matters only for a session id or card count that is itself a list or dict. Floats are not modelled at all.
- JSON dicts are Dafny maps, so key order is not modelled. Python compares dicts without regard to order anyway.
- Argument types: the explicit session id, the base URL, the tool name and the list id are strings or absent. Python would accept other types there.
