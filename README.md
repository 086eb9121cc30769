# BCEL product assistant: session manager, agent graph and catalog ingest

This project is a Dafny model of the core of the BCEL chatbot, a banking product assistant. The chatbot runs a LangGraph agent over the Gemini model and MCP Toolbox tools.

It covers three parts of the repository:

- **Sessions** (`agent/agent.py`): the `Agent` class. It keeps a session-id → ID-token index, builds the graph lazily on the first session, and loads each session's persisted history into the checkpoint store. It runs one turn of the graph and answers with the final text and a trace of the tool results. It also resets and signs out sessions.
- **Graph** (`agent/react_graph.py`): the state machine that routes a turn:
  - the login test;
  - least-privilege forwarding of auth-token getters to a tool;
  - the tool node;
  - the routing decision after the model's reply;
  - the sign-in node;
  - the node wiring.

  A run of the compiled graph is modelled against an oracle: a sequence of model replies stands for the language model. The run is bounded by LangGraph's default limit of 25 steps.
- **Catalog** (`data/run_database_init.py`): building the product table:
  - the embedding text of each CSV row;
  - the `Products_types` → `products_types` rename, with the vector attached;
  - validation into a `Product`;
  - the SQL literal escaper;
  - the `CREATE EXTENSION` / `CREATE TABLE` / single multi-row `INSERT` sequence.

Python's failures are values: `Result`/`Outcome` carry `KeyError`, `AttributeError`, `UnboundLocalError`, the "Message type not found." exception, validation errors, LangGraph's `GraphRecursionError` and a model fault. Python slicing `s[i:]` and `sep.join` appear as `Common.SliceFrom` and `Common.Join`.

Some of the code's behaviour is modelled as written, not as intended:

- The trace's `tool_call_id` holds the tool's *name*.
- The trace slice starts one turn before the new turns. It starts at `-1` when the stored history is empty.
- `user_session_reset` leaves the session's token in place.
- `user_session_signout` empties the checkpoint before it raises `KeyError` for an unknown id.
- The tool node's unbound `tool_to_run` is reproduced (see Findings).

The checkpoint store is modelled as `map<thread id, turns>`, with these assumptions:

- `update_state` appends the turns; this is the `add_messages` reducer for turns without ids.
- `put(empty_checkpoint())` removes the thread's messages.
- `get_state` on a thread with no messages returns a snapshot whose values are empty; the `.values["messages"]` subscript (agent/agent.py:107) then raises `KeyError("messages")`.

## Model

| member | source | states |
|---|---|---|
| Common.SliceFrom | agent/agent.py:120 | Python `s[i:]` is always a suffix of `s`. A start `i >= 0` drops the first `i` elements, and all of them past the end. A negative start keeps the last `-i` elements, and all of them below `-len` |
| Common.JoinLength | data/run_database_init.py:108 | `sep.join(parts)` is exactly the parts plus one separator between each pair of neighbours |
| Common.JoinEnds | data/run_database_init.py:108 | `sep.join(parts)` starts with the first part and ends with the last one |
| Messages.DecodeEntry | agent/agent.py:187-192 | a record decodes iff its type is "human" or "ai" and it has a "data" key holding a "content" key. The turn kind follows the type and the content carries over. Any other type is "Message type not found.". A missing key raises `KeyError` for the first one read: "type", then "data", then "content" |
| Messages.DecodeEncode | agent/agent.py:184-193 | decoding the record of a human turn or a tool-free AI turn gives that turn back |
| Messages.EncodeDecode | agent/agent.py:184-193 | a fact about the representation, which keeps only a record's type and content: every record that decodes is the encoding of the turn it decodes to |
| Messages.ParseMessages | agent/agent.py:184-193 | succeeds iff every record decodes, giving one turn per record in order; otherwise fails with the error of the first record that does not decode |
| Messages.TraceOf | agent/agent.py:138-141 | a tool turn's trace record has an `sql` field iff its `additional_kwargs` has a non-empty `sql` |
| Messages.RetrieveTrace | agent/agent.py:134-143 | the loop returns exactly `Trace(messages)`: one record per tool turn, in order |
| Messages.TraceAppend | agent/agent.py:134-143 | the trace of a concatenation is the concatenation of the traces |
| Messages.TraceLength | agent/agent.py:134-143 | the trace has one record per tool turn |
| Messages.TraceOfNoTools | agent/agent.py:136-137 | turns that are not tool results add nothing to the trace |
| Messages.TraceEntriesFromTools | agent/agent.py:136-142 | every trace record is the record of some tool turn of the input |
| Graph.AuthnKeysMembers | agent/react_graph.py:69-71 | a service is in the key set built by the `update` loop iff it occurs in some authentication parameter list |
| Graph.IsLoggedIn | agent/react_graph.py:47-57 | logged in iff the config offers a getter for "my_google_service" and calling it gives a non-empty token; a config lacking `configurable`, `auth_token_getters` or that getter is logged out |
| Graph.ToolToRun | agent/react_graph.py:60-77 | the tool to run keeps the selected tool's name, behaviour and auth requirements |
| Graph.ToolToRunLeastPrivilege | agent/react_graph.py:60-77 | every newly bound getter is one the tool requires and the config offers; every such getter is bound; with nothing to forward the tool is returned unchanged |
| Graph.GetToolToRun | agent/react_graph.py:60-77 | the imperative key-set loop and filter produce exactly `ToolToRun` |
| Graph.FindTool | agent/react_graph.py:102 | `next(...)` gives None iff no tool has the name; otherwise it gives the first tool with that name |
| Graph.ToolMessagesShape | agent/react_graph.py:100-119 | one tool turn per call, in call order, with the call's id and its output (result, not-found text or execution-error text). A resolved call's turn carries its own name; an unknown call's turn repeats the previous turn's name |
| Graph.BoundNeverFails | agent/react_graph.py:100-119 | once `tool_to_run` has been bound, the remaining calls never fail |
| Graph.ToolNodeFailsIff | agent/react_graph.py:93-121 | the tool node fails iff the last turn is an AI turn whose first call names an unknown tool; the failure is `UnboundLocalError("tool_to_run")` |
| Graph.ToolNode | agent/react_graph.py:93-121 | the imperative node returns exactly `ToolNodeResult`: no turns when the last turn has no tool calls, otherwise the per-call loop as written |
| Graph.IntendedToolMessages | agent/react_graph.py:100-119 | corrected node: one turn per call, each named after its own call, with the call's output and id |
| Graph.IntendedAgreesWhenAllResolve | agent/react_graph.py:100-119 | when every call names a known tool, the as-written and corrected nodes give the same turns |
| Graph.UnknownFirstToolAborts | agent/react_graph.py:104-115 | a lone call to an unknown tool makes the as-written node raise `UnboundLocalError`, where the corrected node answers "Error: Tool 'nonexistent_tool' not found." |
| Graph.UnknownLaterToolGetsStaleName | agent/react_graph.py:104-115 | after a `search_products` call, an unknown call's turn is named `search_products` |
| Graph.ScanCallsDecides | agent/react_graph.py:159-168 | the early-return scan gives "request_login" iff some call names an auth tool while logged out, and "continue" otherwise |
| Graph.ScanCallsRoutes | agent/react_graph.py:159-168 | the scan over the calls never says "end", and says "request_login" only while logged out |
| Graph.ShouldContinue | agent/react_graph.py:144-168 | "end" iff the last turn is not an AI turn or has no tool calls; "request_login" only while logged out |
| Graph.RouteDecision | agent/react_graph.py:144-168 | "end" iff the last turn has no tool calls; "request_login" iff it has one naming an auth tool while logged out; "continue" otherwise |
| Graph.NoAuthToolsNoLogin | agent/tools.py:50-53 | with the shipped empty auth-tool list, the router never asks for a login |
| Graph.LoginReply | agent/react_graph.py:134-141 | the sign-in node appends one AI turn with the sign-in text and no tool calls; it can be stored as history and adds nothing to a trace |
| Graph.Wiring | agent/react_graph.py:170-193 | the tool node is the only predecessor of the agent; the agent goes to tools iff "continue" and to the sign-in node iff "request_login"; END is reached from the agent on "end" or from the sign-in node |
| Graph.RunCycle | agent/react_graph.py:170-193 | the imperative node-by-node run of the compiled graph, counting node executions against the default step limit, equals the `Invoke` specification |
| Graph.RunExtends | agent/react_graph.py:128-141 | a run only appends turns: the starting turns are a prefix of the final turns |
| Graph.RunEndsWithAnswer | agent/react_graph.py:144-193 | a finished run ends on an AI turn with no tool calls: the model's answer or the sign-in text |
| Graph.EveryCallAnswered | agent/react_graph.py:93-193 | with no auth tools, a run appends exactly one tool turn per tool call it requests |
| Graph.PlainAnswer | agent/react_graph.py:156-157 | a reply without tool calls ends the run right after the human turn |
| Graph.LoginScenario | agent/react_graph.py:134-141 | a call to an auth tool while logged out appends the sign-in text and stops, and no tool runs |
| Graph.ToolLoopExhaustsSteps | agent/agent.py:115-118 | a model that asks for tools `k` times in a row needs `2k` node executions, so with fewer steps left the run raises `GraphRecursionError` |
| Graph.ToolLoopFits | agent/agent.py:115-118 | with at least `2k + 1` steps, `k` tool round trips followed by an answer complete |
| Graph.RecursionLimitBoundary | agent/agent.py:115-118 | `get_config` sets no `recursion_limit`, so the default of 25 applies: a turn of `k` tool round trips and an answer completes iff `k <= 12`, and raises `GraphRecursionError` otherwise |
| Sessions.GetBaseHistory | agent/agent.py:195-204 | without `user_info` the greeting is `BASE_HISTORY`. With it, the greeting is personalised with the name, and a missing `name` raises `KeyError`. Either greeting decodes to an AI turn |
| Sessions.GetConfig | agent/agent.py:206-215 | the config names the session as its thread, has an empty namespace and offers exactly one getter, under "my_google_service". Called, the getter gives the session's token as the index holds it then, or None for an unknown id |
| Sessions.LoggedInIffToken | agent/agent.py:206-215 | the session's config counts as logged in iff the session's stored token is present and non-empty |
| Sessions.TraceCoversNewTurns | agent/agent.py:105-120 | when the stored turns end in a non-tool turn, the response trace is exactly the trace of the turns the run appended |
| Sessions.EmptyHistoryHidesTrace | agent/agent.py:105-120 | with no stored turns the slice index is -1, so the trace is empty whatever tools ran |
| Sessions.OutputIsFinalAnswer | agent/agent.py:119-122 | the output is the content of the final turn, an AI turn with no pending calls |
| Sessions.RunResponds | agent/agent.py:105-122 | a completed run from a thread that ends in a non-tool turn ends in an AI turn, and, if the thread was not empty, its trace is exactly that of the appended turns |
| Sessions.Agent.constructor | agent/agent.py:49-52 | no sessions, no graph, no checkpoints |
| Sessions.Agent.SessionExist | agent/agent.py:54-55 | a session that does not exist is never logged in: its getter finds no token |
| Sessions.Agent.GetUserIdToken | agent/agent.py:160-161 | a token is returned iff the session exists |
| Sessions.Agent.SetUserSessionHeader | agent/agent.py:157-158 | the id's token becomes the given one and no other id's token changes |
| Sessions.Agent.UserSessionCreate | agent/agent.py:68-100 | the graph is built once, an id is minted only when absent, the greeting is seeded only when history is absent. It passes iff the history parses; otherwise it fails with the error of the first record that does not decode, every earlier record having decoded, and leaves the index and the store as they were. When it passes, the turns are appended to the thread and the session is registered with an empty token, so it is logged out |
| Sessions.Agent.UserSessionInvoke | agent/agent.py:102-132 | fails with `AttributeError` before any session. Fails with `KeyError` for a thread the store does not hold: never created, or signed out. A thread created from an empty history is held, and runs with a start index of -1. Otherwise the run's final turns are stored and answered with `Respond`, and the trace covers exactly the appended turns when the thread was not empty. Every stored thread stays empty or ending in a non-tool turn. A failed run leaves the store unchanged (an assumption; see Left out) |
| Sessions.Agent.UserSessionReset | agent/agent.py:145-155 | a missing history raises `KeyError`; the history becomes one greeting; the thread's turns become that greeting alone; the token index is untouched |
| Sessions.Agent.UserSessionSignout | agent/agent.py:217-223 | the checkpoint is emptied first, then the id is deleted from the token index; an unknown id raises `KeyError` after the checkpoint is already emptied |
| Catalog.EscapeSql | data/run_database_init.py:50-58 | None becomes `NULL`; strings and lists become strings; any other value comes back unchanged |
| Catalog.EscapeStringRoundTrip | data/run_database_init.py:53-54 | an escaped string is quoted at both ends, has length `len + 2 + quotes`, every interior quote is doubled, and collapsing the doubled quotes gives the string back |
| Catalog.DoubleQuotesLength | data/run_database_init.py:54 | `replace("'", "''")` adds one character per quote |
| Catalog.CollapseDoubleQuotes | data/run_database_init.py:54 | collapsing `''` undoes the doubling |
| Catalog.DoubleQuotesPaired | data/run_database_init.py:54 | the doubled text has no unpaired quote |
| Catalog.DoubleCollapsedQuotes | data/run_database_init.py:54 | every text with only paired quotes is the doubling of its collapse |
| Catalog.EmbeddingText | data/run_database_init.py:28-31 | the text exists iff the header has `product_name`, `description` and `audience`. It is "name description (audience)", where a cell a short row does not reach renders as "None". A missing column raises `KeyError` for the first of `product_name`, `description`, `audience` that the header lacks |
| Catalog.EmbeddingTexts | data/run_database_init.py:28-31 | one text per row, in row order, iff every row has the three columns; otherwise the error of the first row that lacks one |
| Catalog.Prepare | data/run_database_init.py:37-43 | `Products_types` is gone, `products_types` holds its value (default ''), `embedding` holds the row's vector, and every other column is unchanged |
| Catalog.ToProduct | data/run_database_init.py:46 | validation passes iff all eight text fields are present as text; each text field of the product holds the record's cell of the same column name (read through `Column`); the product keeps the record's embedding |
| Catalog.PreparedRowValidates | data/run_database_init.py:37-46 | a renamed row validates iff the row holds a cell for the seven other text columns, and for `Products_types` when the header has it. The product type defaults to '', every other text column of the product holds the row's own cell for that column, and the product carries its own row's vector |
| Catalog.ValidateRows | data/run_database_init.py:37-46 | one product per row in order iff every row validates; otherwise the error of the first row that does not validate, every earlier row having validated |
| Catalog.LoadDataset | data/run_database_init.py:19-48 | a missing column in the text pass raises before any product is built. Otherwise it succeeds iff every renamed row validates, giving one product per row in order, each with the i-th vector. When a row fails validation, the error is that of the first failing row, and every earlier row validated |
| Catalog.FieldsFollowTableColumns | data/run_database_init.py:71-103 | the tuple lists each product's fields in the `CREATE TABLE` column order |
| Catalog.TupleTextShape | data/run_database_init.py:92-103 | a tuple holds the nine field lines joined by ",\n". It opens with the quoted product id, its quotes doubled, and closes with the escaped embedding |
| Catalog.InitializeData | data/run_database_init.py:60-108 | the extension is created, then the table; an `INSERT` is issued iff there are products, joining their tuples with ", " |
| Catalog.InsertStatementShape | data/run_database_init.py:92-108 | the INSERT starts with the first product's tuple and ends with the last one's, and its length is the tuples' plus one ", " per neighbour pair |

## Left out

- The language model (ChatVertexAI, the prompt template, the Bangkok-time date line) is replaced by a sequence of replies. An exhausted sequence is a model fault.
- A tool's result is fixed per tool (a text or a raised message). It does not depend on the call's arguments or the bound getters, because the Toolbox server is not part of this model.
- `initialize_tools`, `get_embeddings`, the CSV file reading and the database connection are not part of this model; they are network and file I/O. The embedding vectors and the loaded tools are parameters.
- LangGraph internals are assumed, not modelled:
  - message-id merging in `add_messages`;
  - intermediate checkpoints written before a failure;
  - the debug flag;
  - resuming from a checkpoint when the input is None. A run with no input simply starts at the agent node.
- Graph.RunCycle: the default `recursion_limit` of 25 is modelled as 25 node executions per run. The 26th node runs, and the run then raises `GraphRecursionError`. That count assumes LangGraph's step accounting, with the input step counted. It is applied the same way to a run with no input.
- Sessions.Agent.UserSessionInvoke: a failed run leaves the model's store unchanged. The program's checkpointer keeps what the completed nodes wrote before the failure. After an `UnboundLocalError` in the tool node, the human turn and the AI reply with the unanswered call stay in the thread. After a model error that follows the tool node, the thread ends in a tool turn. The next turn then starts from those turns. The model's invariant that a stored thread ends in a non-tool turn rests on this assumption.
- asyncio scheduling and concurrent sessions are not modelled; each call is atomic.
- Graph.ToolToRun: a getter already bound to the tool is overridden. The Toolbox library's treatment of a duplicate is not part of this model; the tools as loaded carry no getters. That `add_auth_token_getters` leaves the tool's `required_authz_tokens` and `required_authn_params` as they were is an assumption of this model: the library is not part of it, and may drop requirements that the bound getters satisfy.
- Catalog.EmbeddingText: the extra cells of a long CSV row, which `csv.DictReader` files under the key None, are not modelled. `Product.model_validate` ignores that key.
- Catalog.EscapeSql: a list is carried as its `str()` text. Python's float formatting of the vector is not modelled.
- Catalog.ToProduct: reports only the first missing field, where pydantic reports all of them. A text `embedding` is read as unparsable (None), because `validate_embedding`'s `literal_eval` is not modelled.
- `create_prompt_template`, `get_datetime`, `DEBUG` and `print` output are left out; they do not affect the state.

## Findings

| source | as written | input that shows it | evidently intended | confidence | as-written member | corrected member |
|---|---|---|---|---|---|---|
| agent/react_graph.py:104-115 | the unknown-tool branch sets only `output`, but the message is built from `tool_to_run.name` | a reply whose first call names a tool that does not exist: the node raises `UnboundLocalError`. A later unknown call gets the previous tool's name | every call answered with a turn named after its own call, carrying "Error: Tool '…' not found." | high; not executed | Graph.UnknownFirstToolAborts | Graph.IntendedToolMessages |

The graph run (`Graph.RunCycle`) still uses the node as written, so a session turn that hits the fault fails with `UnboundLocalError`. The model's store keeps the turns it had before the turn. The program's store keeps the human turn and the AI reply with the unanswered call (see Left out). The corrected node is `Graph.IntendedToolMessages`.
