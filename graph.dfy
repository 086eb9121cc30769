/** The turn-routing state machine of agent/react_graph.py: the login test,
    least-privilege getter filtering, the tool node, the routing decision,
    the login node, the graph wiring, and one run of the compiled graph
    against an oracle that stands for the language model. */
module Graph {
  import opened Common
  import opened Messages

  /** `lambda: agent.get_user_id_token(session_id)`: a getter that reads the
      live session-to-token index when it is called. */
  datatype Getter = TokenOf(sessionId: string)

  function CallGetter(g: Getter, tokens: map<string, string>): Option<string>
  {
    if g.sessionId in tokens then Some(tokens[g.sessionId]) else None
  }

  /** `config["configurable"]`; `None` stands for an absent key. */
  datatype Configurable = Configurable(
    threadId: string,
    authTokenGetters: Option<map<string, Getter>>,
    checkpointNs: string)

  /** A RunnableConfig: `configurable` is `None` when the key is absent. */
  datatype Config = Config(configurable: Option<Configurable>)

  const GoogleService := "my_google_service"

  /** Python truthiness of an optional string. */
  predicate Truthy(v: Option<string>)
  {
    v.Some? && v.value != ""
  }

  /** The getters a config carries, empty when either key is absent. */
  function GettersOf(config: Config): map<string, Getter>
  {
    if config.configurable.Some? && config.configurable.value.authTokenGetters.Some?
    then config.configurable.value.authTokenGetters.value
    else map[]
  }

  /** `__is_logged_in`: the Google-service getter is present and returns a
      truthy token. Read through `GettersOf`: a config that lacks
      `configurable` or `auth_token_getters`, or whose getters omit the
      Google service, is logged out whatever the tokens. */
  predicate IsLoggedIn(config: Config, tokens: map<string, string>)
    ensures IsLoggedIn(config, tokens) <==>
      GoogleService in GettersOf(config) && Truthy(CallGetter(GettersOf(config)[GoogleService], tokens))
    ensures GoogleService !in GettersOf(config) ==> !IsLoggedIn(config, tokens)
  {
    && config.configurable.Some?
    && config.configurable.value.authTokenGetters.Some?
    && GoogleService in config.configurable.value.authTokenGetters.value
    && Truthy(CallGetter(config.configurable.value.authTokenGetters.value[GoogleService], tokens))
  }

  /** What a tool invocation does: return a text or raise with a message. */
  datatype ToolResult = Returns(text: string) | Raises(message: string)

  /** A loaded Toolbox tool: its name, the auth services it requires
      (`_required_authz_tokens` and the values of `_required_authn_params`),
      the getters bound to it, and its behaviour when invoked. */
  datatype ToolboxTool = ToolboxTool(
    name: string,
    requiredAuthzTokens: seq<string>,
    requiredAuthnParams: seq<seq<string>>,
    authTokenGetters: map<string, Getter>,
    behaviour: ToolResult)

  function SetOf(s: seq<string>): set<string>
  {
    set x | x in s
  }

  /** The union of the auth-service lists, the last one added last. */
  function AuthnKeys(params: seq<seq<string>>): set<string>
  {
    if params == [] then {}
    else AuthnKeys(params[..|params| - 1]) + SetOf(params[|params| - 1])
  }

  /** Every service some list of `params` names. */
  lemma {:induction false} AuthnKeysMembers(params: seq<seq<string>>, k: string)
    ensures k in AuthnKeys(params) <==> exists i :: 0 <= i < |params| && k in params[i]
  {
    if params != [] {
      var init := params[..|params| - 1];
      AuthnKeysMembers(init, k);
      if k in AuthnKeys(params) && k !in SetOf(params[|params| - 1]) {
        var i :| 0 <= i < |init| && k in init[i];
        assert params[i] == init[i];
      }
      if exists i :: 0 <= i < |params| && k in params[i] {
        var i :| 0 <= i < |params| && k in params[i];
        if i < |params| - 1 {
          assert init[i] == params[i];
        }
      }
    }
  }

  /** The auth services a tool asks for. */
  function RequiredAuthKeys(tool: ToolboxTool): set<string>
  {
    SetOf(tool.requiredAuthzTokens) + AuthnKeys(tool.requiredAuthnParams)
  }

  /** The getters whose key the tool asks for. */
  function FilterGetters(getters: map<string, Getter>, keys: set<string>): map<string, Getter>
  {
    map k | k in getters && k in keys :: getters[k]
  }

  /** `__get_tool_to_run`: bind only the config's getters whose key the tool
      requires; without such getters the tool is returned unchanged. */
  function ToolToRun(tool: ToolboxTool, config: Config): (r: ToolboxTool)
    ensures r.name == tool.name && r.behaviour == tool.behaviour
    ensures r.requiredAuthzTokens == tool.requiredAuthzTokens
    ensures r.requiredAuthnParams == tool.requiredAuthnParams
  {
    if config.configurable.Some? && config.configurable.value.authTokenGetters.Some? then
      var getters := config.configurable.value.authTokenGetters.value;
      if getters != map[] then
        var filtered := FilterGetters(getters, RequiredAuthKeys(tool));
        if filtered != map[] then tool.(authTokenGetters := tool.authTokenGetters + filtered)
        else tool
      else tool
    else tool
  }

  /** Least privilege: a getter newly bound to the tool is one the tool
      requires, taken from the config; every required getter the config
      offers is bound; with nothing to forward the tool is the same tool. */
  lemma ToolToRunLeastPrivilege(tool: ToolboxTool, config: Config)
    ensures var r := ToolToRun(tool, config);
      && (forall k :: k in r.authTokenGetters && k !in tool.authTokenGetters ==>
            k in RequiredAuthKeys(tool) && k in GettersOf(config))
      && (forall k :: k in r.authTokenGetters ==>
            r.authTokenGetters[k] == (if k in GettersOf(config) && k in RequiredAuthKeys(tool)
                                      then GettersOf(config)[k] else tool.authTokenGetters[k]))
      && (forall k :: k in GettersOf(config) && k in RequiredAuthKeys(tool) ==> k in r.authTokenGetters)
      && (FilterGetters(GettersOf(config), RequiredAuthKeys(tool)) == map[] ==> r == tool)
  {
    var keys := RequiredAuthKeys(tool);
    var filtered := FilterGetters(GettersOf(config), keys);
    assert forall k :: k in GettersOf(config) && k in keys ==> k in filtered;
  }

  /** `__get_tool_to_run` as written: the required-key set grows by `update`
      over the authentication parameter lists, then the getters are filtered. */
  method GetToolToRun(tool: ToolboxTool, config: Config) returns (r: ToolboxTool)
    ensures r == ToolToRun(tool, config)
  {
    if config.configurable.Some? && config.configurable.value.authTokenGetters.Some? {
      var getters := config.configurable.value.authTokenGetters.value;
      if getters != map[] {
        var required := SetOf(tool.requiredAuthzTokens);
        var params := tool.requiredAuthnParams;
        var i := 0;
        while i < |params|
          invariant 0 <= i <= |params|
          invariant required == SetOf(tool.requiredAuthzTokens) + AuthnKeys(params[..i])
        {
          assert params[..i + 1][..i] == params[..i];
          required := required + SetOf(params[i]);
          i := i + 1;
        }
        assert params[..i] == params;
        var filtered := map k | k in getters && k in required :: getters[k];
        if filtered != map[] {
          return tool.(authTokenGetters := tool.authTokenGetters + filtered);
        }
      }
    }
    return tool;
  }

  /** `next((t for t in tools if t.name == name), None)`: the first tool of that name. */
  function FindTool(tools: seq<ToolboxTool>, name: string): (r: Option<ToolboxTool>)
    ensures r.None? <==> forall i :: 0 <= i < |tools| ==> tools[i].name != name
    ensures r.Some? ==> exists i :: 0 <= i < |tools| && tools[i] == r.value && r.value.name == name
                                    && forall j :: 0 <= j < i ==> tools[j].name != name
  {
    if tools == [] then None
    else if tools[0].name == name then Some(tools[0])
    else
      var r := FindTool(tools[1..], name);
      assert forall i :: 1 <= i < |tools| ==> tools[i] == tools[1..][i - 1];
      r
  }

  function NotFoundText(name: string): string
  {
    "Error: Tool '" + name + "' not found."
  }

  function ExecutionErrorText(name: string, message: string): string
  {
    "Error executing tool " + name + ": " + message
  }

  /** The content of the result turn for one call: the tool's text, or the
      error text for an unknown name or a raised exception. */
  function ToolOutput(tools: seq<ToolboxTool>, call: ToolCall, config: Config): string
  {
    match FindTool(tools, call.name)
    case None => NotFoundText(call.name)
    case Some(t) =>
      match ToolToRun(t, config).behaviour
      case Returns(text) => text
      case Raises(message) => ExecutionErrorText(call.name, message)
  }

  function Prepend(ms: seq<Msg>, r: Result<seq<Msg>>): Result<seq<Msg>>
  {
    match r
    case Ok(rest) => Ok(ms + rest)
    case Err(e) => Err(e)
  }

  /** The tool node's loop as written, from some call on: `bound` is the name
      of `tool_to_run` left by an earlier iteration (None while unassigned).
      An unknown name reads `tool_to_run`: unbound, that raises; bound, the
      result turn carries the stale name. */
  function ToolMessagesFrom(calls: seq<ToolCall>, tools: seq<ToolboxTool>, config: Config, bound: Option<string>)
    : Result<seq<Msg>>
    decreases |calls|
  {
    if calls == [] then Ok([])
    else
      var call := calls[0];
      var found := FindTool(tools, call.name);
      if found.None? && bound.None? then Err(UnboundLocalError("tool_to_run"))
      else
        var name := if found.Some? then ToolToRun(found.value, config).name else bound.value;
        var m := Tool(name, ToolOutput(tools, call, config), call.id, map[]);
        Prepend([m], ToolMessagesFrom(calls[1..], tools, config, Some(name)))
  }

  /** What `tool_node` returns for a state whose last turn is `messages[-1]`. */
  function ToolNodeResult(messages: seq<Msg>, tools: seq<ToolboxTool>, config: Config): Result<seq<Msg>>
    requires |messages| > 0
  {
    var last := messages[|messages| - 1];
    if !last.AI? then Ok([])
    else ToolMessagesFrom(last.toolCalls, tools, config, None)
  }

  /** One result turn per call, in call order, tagged with the call's id;
      a resolved call's turn carries its name, an unknown call's turn
      repeats the name of the turn before it. */
  lemma ToolMessagesShape(calls: seq<ToolCall>, tools: seq<ToolboxTool>, config: Config, bound: Option<string>)
    requires ToolMessagesFrom(calls, tools, config, bound).Ok?
    ensures var ms := ToolMessagesFrom(calls, tools, config, bound).value;
      && |ms| == |calls|
      && (forall i :: 0 <= i < |ms| ==>
            && ms[i].Tool?
            && ms[i].toolCallId == calls[i].id
            && ms[i].content == ToolOutput(tools, calls[i], config)
            && ms[i].additionalKwargs == map[])
      && (forall i :: 0 <= i < |ms| && FindTool(tools, calls[i].name).Some? ==> ms[i].name == calls[i].name)
      && (forall i :: 0 < i < |ms| && FindTool(tools, calls[i].name).None? ==> ms[i].name == ms[i - 1].name)
      && (|ms| > 0 && FindTool(tools, calls[0].name).None? ==> Some(ms[0].name) == bound)
  {
    ToolMessagesContents(calls, tools, config, bound);
    ToolMessagesNames(calls, tools, config, bound);
  }

  /** The turns of the loop: one per call, with the call's id and output. */
  lemma {:induction false} ToolMessagesContents(calls: seq<ToolCall>, tools: seq<ToolboxTool>, config: Config,
                                                bound: Option<string>)
    requires ToolMessagesFrom(calls, tools, config, bound).Ok?
    ensures var ms := ToolMessagesFrom(calls, tools, config, bound).value;
      && |ms| == |calls|
      && (forall i :: 0 <= i < |ms| ==>
            && ms[i].Tool?
            && ms[i].toolCallId == calls[i].id
            && ms[i].content == ToolOutput(tools, calls[i], config)
            && ms[i].additionalKwargs == map[])
  {
    if calls != [] {
      var found := FindTool(tools, calls[0].name);
      var name := if found.Some? then ToolToRun(found.value, config).name else bound.value;
      var rest := ToolMessagesFrom(calls[1..], tools, config, Some(name));
      ToolMessagesContents(calls[1..], tools, config, Some(name));
      var rs := rest.value;
      var ms := ToolMessagesFrom(calls, tools, config, bound).value;
      assert ms == [Tool(name, ToolOutput(tools, calls[0], config), calls[0].id, map[])] + rs;
      forall i | 0 <= i < |ms|
        ensures && ms[i].Tool?
                && ms[i].toolCallId == calls[i].id
                && ms[i].content == ToolOutput(tools, calls[i], config)
                && ms[i].additionalKwargs == map[]
      {
        if i > 0 {
          assert ms[i] == rs[i - 1] && calls[i] == calls[1..][i - 1];
        }
      }
    }
  }

  /** The names the loop gives its turns: a resolved call's own name, and
      for an unknown call the name `tool_to_run` still holds. */
  lemma {:induction false} ToolMessagesNames(calls: seq<ToolCall>, tools: seq<ToolboxTool>, config: Config,
                                             bound: Option<string>)
    requires ToolMessagesFrom(calls, tools, config, bound).Ok?
    ensures var ms := ToolMessagesFrom(calls, tools, config, bound).value;
      && |ms| == |calls|
      && (forall i :: 0 <= i < |ms| ==> ms[i].Tool?)
      && (forall i :: 0 <= i < |ms| && FindTool(tools, calls[i].name).Some? ==> ms[i].name == calls[i].name)
      && (forall i :: 0 < i < |ms| && FindTool(tools, calls[i].name).None? ==> ms[i].name == ms[i - 1].name)
      && (|ms| > 0 && FindTool(tools, calls[0].name).None? ==> Some(ms[0].name) == bound)
  {
    if calls != [] {
      var found := FindTool(tools, calls[0].name);
      var name := if found.Some? then ToolToRun(found.value, config).name else bound.value;
      var rest := ToolMessagesFrom(calls[1..], tools, config, Some(name));
      ToolMessagesNames(calls[1..], tools, config, Some(name));
      var rs := rest.value;
      var ms := ToolMessagesFrom(calls, tools, config, bound).value;
      assert ms == [Tool(name, ToolOutput(tools, calls[0], config), calls[0].id, map[])] + rs;
      forall i | 0 <= i < |ms|
        ensures ms[i].Tool?
        ensures FindTool(tools, calls[i].name).Some? ==> ms[i].name == calls[i].name
      {
        if i > 0 {
          assert ms[i] == rs[i - 1] && calls[i] == calls[1..][i - 1];
        }
      }
      forall i | 0 < i < |ms| && FindTool(tools, calls[i].name).None?
        ensures ms[i].name == ms[i - 1].name
      {
        assert ms[i] == rs[i - 1] && calls[i] == calls[1..][i - 1];
        if i > 1 {
          assert ms[i - 1] == rs[i - 2];
        }
      }
    }
  }

  /** Once `tool_to_run` is bound the loop cannot fail. */
  lemma {:induction false} BoundNeverFails(calls: seq<ToolCall>, tools: seq<ToolboxTool>, config: Config, name: string)
    ensures ToolMessagesFrom(calls, tools, config, Some(name)).Ok?
  {
    if calls != [] {
      var found := FindTool(tools, calls[0].name);
      var next := if found.Some? then ToolToRun(found.value, config).name else name;
      BoundNeverFails(calls[1..], tools, config, next);
    }
  }

  /** `tool_node` fails exactly when the first call names an unknown tool:
      then `tool_to_run` is read before any assignment. */
  lemma ToolNodeFailsIff(messages: seq<Msg>, tools: seq<ToolboxTool>, config: Config)
    requires |messages| > 0
    ensures var last := messages[|messages| - 1];
      ToolNodeResult(messages, tools, config).Err? <==>
        last.AI? && |last.toolCalls| > 0 && FindTool(tools, last.toolCalls[0].name).None?
    ensures ToolNodeResult(messages, tools, config).Err? ==>
      ToolNodeResult(messages, tools, config).error == UnboundLocalError("tool_to_run")
  {
    var last := messages[|messages| - 1];
    if last.AI? && |last.toolCalls| > 0 {
      var calls := last.toolCalls;
      var found := FindTool(tools, calls[0].name);
      if found.Some? {
        BoundNeverFails(calls[1..], tools, config, ToolToRun(found.value, config).name);
      }
    }
  }

  function NameOf(t: Option<ToolboxTool>): Option<string>
  {
    if t.Some? then Some(t.value.name) else None
  }

  /** One step of the tool node's loop, at call `i`. */
  lemma ToolMessagesAt(calls: seq<ToolCall>, i: nat, tools: seq<ToolboxTool>, config: Config, bound: Option<string>)
    requires i < |calls|
    ensures var found := FindTool(tools, calls[i].name);
      ToolMessagesFrom(calls[i..], tools, config, bound)
      == if found.None? && bound.None? then Err(UnboundLocalError("tool_to_run"))
         else
           var name := if found.Some? then found.value.name else bound.value;
           Prepend([Tool(name, ToolOutput(tools, calls[i], config), calls[i].id, map[])],
                   ToolMessagesFrom(calls[i + 1..], tools, config, Some(name)))
  {
    assert calls[i..][0] == calls[i] && calls[i..][1..] == calls[i + 1..];
  }

  lemma PrependTwice(a: seq<Msg>, b: seq<Msg>, r: Result<seq<Msg>>)
    ensures Prepend(a, Prepend(b, r)) == Prepend(a + b, r)
  {
    if r.Ok? {
      assert a + (b + r.value) == (a + b) + r.value;
    }
  }

  lemma PrependNothing(r: Result<seq<Msg>>)
    ensures Prepend([], r) == r
  {
    if r.Ok? {
      assert [] + r.value == r.value;
    }
  }

  /** `tool_node` as written: no `tool_calls` attribute gives no turns;
      otherwise one result turn per call, in order, raised tool errors turned
      into text, and `tool_to_run` left unassigned until a tool resolves. */
  method ToolNode(messages: seq<Msg>, tools: seq<ToolboxTool>, config: Config) returns (r: Result<seq<Msg>>)
    requires |messages| > 0
    ensures r == ToolNodeResult(messages, tools, config)
  {
    var last := messages[|messages| - 1];
    if !last.AI? {
      return Ok([]);
    }
    var calls := last.toolCalls;
    var toolMessages: seq<Msg> := [];
    var toolToRun: Option<ToolboxTool> := None;
    var i := 0;
    assert calls[i..] == calls;
    PrependNothing(ToolMessagesFrom(calls, tools, config, None));
    while i < |calls|
      invariant 0 <= i <= |calls|
      invariant ToolMessagesFrom(calls, tools, config, None)
             == Prepend(toolMessages, ToolMessagesFrom(calls[i..], tools, config, NameOf(toolToRun)))
    {
      var call := calls[i];
      ghost var bound := NameOf(toolToRun);
      ToolMessagesAt(calls, i, tools, config, bound);
      var selected := FindTool(tools, call.name);
      var output: string;
      if selected.None? {
        output := NotFoundText(call.name);
      } else {
        var t := GetToolToRun(selected.value, config);
        toolToRun := Some(t);
        match t.behaviour {
          case Returns(text) => output := text;
          case Raises(message) => output := ExecutionErrorText(call.name, message);
        }
      }
      if toolToRun.None? {
        return Err(UnboundLocalError("tool_to_run"));
      }
      var m := Tool(toolToRun.value.name, output, call.id, map[]);
      PrependTwice(toolMessages, [m], ToolMessagesFrom(calls[i + 1..], tools, config, NameOf(toolToRun)));
      toolMessages := toolMessages + [m];
      i := i + 1;
    }
    assert calls[i..] == [];
    assert toolMessages + [] == toolMessages;
    return Ok(toolMessages);
  }

  /** The tool node as evidently intended: every call gets a result turn
      named after its own call, and an unknown name never aborts the node. */
  function IntendedToolMessages(calls: seq<ToolCall>, tools: seq<ToolboxTool>, config: Config): (ms: seq<Msg>)
    ensures |ms| == |calls|
    ensures forall i :: 0 <= i < |ms| ==>
      ms[i] == Tool(calls[i].name, ToolOutput(tools, calls[i], config), calls[i].id, map[])
  {
    if calls == [] then []
    else [Tool(calls[0].name, ToolOutput(tools, calls[0], config), calls[0].id, map[])]
         + IntendedToolMessages(calls[1..], tools, config)
  }

  /** As written and as intended agree whenever every call resolves. */
  lemma {:induction false} IntendedAgreesWhenAllResolve(calls: seq<ToolCall>, tools: seq<ToolboxTool>, config: Config,
                                                        bound: Option<string>)
    requires forall i :: 0 <= i < |calls| ==> FindTool(tools, calls[i].name).Some?
    ensures ToolMessagesFrom(calls, tools, config, bound) == Ok(IntendedToolMessages(calls, tools, config))
  {
    if calls != [] {
      assert forall i :: 0 <= i < |calls[1..]| ==> calls[1..][i] == calls[i + 1];
      IntendedAgreesWhenAllResolve(calls[1..], tools, config, Some(calls[0].name));
    }
  }

  /** The unknown-tool scenario: a lone call to a name no tool has. As written
      the node raises; as intended it answers with the not-found text. */
  lemma UnknownFirstToolAborts(tools: seq<ToolboxTool>, config: Config, history: seq<Msg>)
    requires forall i :: 0 <= i < |tools| ==> tools[i].name != "nonexistent_tool"
    ensures var calls := [ToolCall("nonexistent_tool", map[], "call-1")];
      && ToolNodeResult(history + [AI("", calls)], tools, config) == Err(UnboundLocalError("tool_to_run"))
      && IntendedToolMessages(calls, tools, config)
         == [Tool("nonexistent_tool", "Error: Tool 'nonexistent_tool' not found.", "call-1", map[])]
  {
    var calls := [ToolCall("nonexistent_tool", map[], "call-1")];
    assert (history + [AI("", calls)])[|history|] == AI("", calls);
    assert FindTool(tools, "nonexistent_tool") == None;
    NotFoundTextOfUnknown();
  }

  /** The stale-name case: a resolved call followed by an unknown one; the
      second result turn is named after the first tool. */
  lemma UnknownLaterToolGetsStaleName(tool: ToolboxTool, config: Config)
    requires tool.name == "search_products"
    ensures var calls := [ToolCall("search_products", map[], "a"), ToolCall("nonexistent_tool", map[], "b")];
      var r := ToolMessagesFrom(calls, [tool], config, None);
      && r.Ok? && |r.value| == 2
      && r.value[1] == Tool("search_products", "Error: Tool 'nonexistent_tool' not found.", "b", map[])
  {
    var calls := [ToolCall("search_products", map[], "a"), ToolCall("nonexistent_tool", map[], "b")];
    assert "search_products" != "nonexistent_tool" by {
      assert |"search_products"| != |"nonexistent_tool"|;
    }
    assert FindTool([tool], "search_products") == Some(tool);
    assert FindTool([tool], "nonexistent_tool") == None;
    NotFoundTextOfUnknown();
    var m0 := Tool("search_products", ToolOutput([tool], calls[0], config), "a", map[]);
    var m1 := Tool("search_products", "Error: Tool 'nonexistent_tool' not found.", "b", map[]);
    ToolMessagesAt(calls, 1, [tool], config, Some("search_products"));
    assert calls[2..] == [] && [m1] + [] == [m1];
    assert ToolOutput([tool], calls[1], config) == NotFoundText("nonexistent_tool");
    assert ToolMessagesFrom(calls[1..], [tool], config, Some("search_products")) == Ok([m1]);
    assert ToolMessagesFrom(calls, [tool], config, None) == Ok([m0] + [m1]);
  }

  lemma NotFoundTextOfUnknown()
    ensures NotFoundText("nonexistent_tool") == "Error: Tool 'nonexistent_tool' not found."
  {
  }

  // ---- Routing ----

  datatype Route = Continue | RequestLogin | End

  /** The early-return scan over the tool calls of `agent_should_continue`. */
  function ScanCalls(calls: seq<ToolCall>, config: Config, tokens: map<string, string>, authTools: seq<string>): Route
  {
    if calls == [] then Continue
    else if calls[0].name in authTools && !IsLoggedIn(config, tokens) then RequestLogin
    else ScanCalls(calls[1..], config, tokens, authTools)
  }

  /** The scan never yields "end", and asks for a login only while logged out. */
  lemma {:induction false} ScanCallsRoutes(calls: seq<ToolCall>, config: Config, tokens: map<string, string>,
                                           authTools: seq<string>)
    ensures ScanCalls(calls, config, tokens, authTools) != End
    ensures ScanCalls(calls, config, tokens, authTools) == RequestLogin ==> !IsLoggedIn(config, tokens)
  {
    if calls != [] {
      ScanCallsRoutes(calls[1..], config, tokens, authTools);
    }
  }

  /** Some call names an auth tool and the user is not logged in. */
  predicate NeedsLogin(calls: seq<ToolCall>, config: Config, tokens: map<string, string>, authTools: seq<string>)
  {
    !IsLoggedIn(config, tokens) && exists i :: 0 <= i < |calls| && calls[i].name in authTools
  }

  lemma {:induction false} ScanCallsDecides(calls: seq<ToolCall>, config: Config, tokens: map<string, string>,
                                            authTools: seq<string>)
    ensures ScanCalls(calls, config, tokens, authTools)
         == (if NeedsLogin(calls, config, tokens, authTools) then RequestLogin else Continue)
  {
    if calls != [] {
      ScanCallsDecides(calls[1..], config, tokens, authTools);
      assert forall i :: 0 < i < |calls| ==> calls[i] == calls[1..][i - 1];
      if NeedsLogin(calls[1..], config, tokens, authTools) {
        var i :| 0 <= i < |calls[1..]| && calls[1..][i].name in authTools;
        assert calls[i + 1].name in authTools;
      }
    }
  }

  /** `agent_should_continue`: "end" exactly when the last turn carries no
      tool calls, and "request_login" only while logged out; the full
      three-way decision is `RouteDecision`. */
  function ShouldContinue(messages: seq<Msg>, config: Config, tokens: map<string, string>, authTools: seq<string>)
    : (r: Route)
    requires |messages| > 0
    ensures r == End <==> !messages[|messages| - 1].AI? || messages[|messages| - 1].toolCalls == []
    ensures r == RequestLogin ==> !IsLoggedIn(config, tokens)
  {
    var last := messages[|messages| - 1];
    if !last.AI? || |last.toolCalls| == 0 then End
    else
      ScanCallsRoutes(last.toolCalls, config, tokens, authTools);
      ScanCalls(last.toolCalls, config, tokens, authTools)
  }

  /** The routing decision: "end" exactly when the last turn has no tool
      calls; "request_login" exactly when some call names an auth tool and
      the user is not logged in; "continue" otherwise. */
  lemma RouteDecision(messages: seq<Msg>, config: Config, tokens: map<string, string>, authTools: seq<string>)
    requires |messages| > 0
    ensures var last := messages[|messages| - 1];
      var r := ShouldContinue(messages, config, tokens, authTools);
      && (r == End <==> !last.AI? || last.toolCalls == [])
      && (r == RequestLogin <==> last.AI? && NeedsLogin(last.toolCalls, config, tokens, authTools))
      && (r == Continue <==>
            last.AI? && last.toolCalls != [] && !NeedsLogin(last.toolCalls, config, tokens, authTools))
  {
    var last := messages[|messages| - 1];
    if last.AI? {
      ScanCallsDecides(last.toolCalls, config, tokens, authTools);
    }
  }

  /** With no auth tools configured (the shipped `get_auth_tools`), the
      router never asks for a login. */
  lemma {:induction false} NoAuthToolsNoLogin(calls: seq<ToolCall>, config: Config, tokens: map<string, string>)
    ensures ScanCalls(calls, config, tokens, []) == Continue
  {
    if calls != [] {
      NoAuthToolsNoLogin(calls[1..], config, tokens);
    }
  }

  // ---- The login node and the wiring ----

  const LoginText := "This action requires you to be signed in. Please log in and then try again."

  /** `request_login_node`: one AI turn with the fixed sign-in text. It
      requests no tool, so it can be persisted as history, and it adds
      nothing to a trace. */
  function LoginReply(): (r: seq<Msg>)
    ensures |r| == 1 && r[0].AI? && r[0].content == LoginText && Persistable(r[0])
    ensures Trace(r) == []
  {
    [AI(LoginText, [])]
  }

  datatype Node = AgentNode | ToolsNode | RequestLoginNode | EndNode

  const EntryPoint: Node := AgentNode

  /** The edges of `create_graph`: agent branches on the route, tools go
      back to agent, the login node goes to END. */
  function Next(n: Node, route: Route): Node
    requires n != EndNode
  {
    match n
    case AgentNode =>
      (match route
       case Continue => ToolsNode
       case RequestLogin => RequestLoginNode
       case End => EndNode)
    case ToolsNode => AgentNode
    case RequestLoginNode => EndNode
  }

  /** The wiring, characterised: only the tools node leads back to the agent,
      END is reached from the agent on "end" or from the login node, and the
      tools and login nodes are reached only from the agent. */
  lemma Wiring(n: Node, route: Route)
    requires n != EndNode
    ensures Next(n, route) == AgentNode <==> n == ToolsNode
    ensures Next(n, route) == EndNode <==> (n == AgentNode && route == End) || n == RequestLoginNode
    ensures Next(n, route) == ToolsNode <==> n == AgentNode && route == Continue
    ensures Next(n, route) == RequestLoginNode <==> n == AgentNode && route == RequestLogin
  {
  }

  // ---- One run of the compiled graph ----

  /** A model reply: final text when `toolCalls` is empty. */
  datatype Reply = Reply(content: string, toolCalls: seq<ToolCall>)

  function AsMsg(r: Reply): Msg
  {
    AI(r.content, r.toolCalls)
  }

  /** What a run sees besides the turns: the tool list, the config, the live
      session-to-token index the getters read, and the auth-tool names. */
  datatype Context = Context(
    tools: seq<ToolboxTool>,
    config: Config,
    tokens: map<string, string>,
    authTools: seq<string>)

  /** LangGraph's default `recursion_limit`; `get_config` sets none. A run may
      execute this many nodes; executing one more raises `GraphRecursionError`. */
  const RecursionLimit: nat := 25

  /** Running the graph from `node` with `steps` node executions left: the
      agent node consumes the next model reply (none left is a model fault),
      the tools node appends its result turns, the login node appends the
      sign-in turn. A node that runs with no step left raises its own error
      if it has one, and `GraphRecursionError` otherwise. */
  function RunFrom(node: Node, msgs: seq<Msg>, replies: seq<Reply>, steps: nat, ctx: Context): Result<seq<Msg>>
    requires node == ToolsNode ==> |msgs| > 0
    decreases steps
  {
    match node
    case EndNode => Ok(msgs)
    case AgentNode =>
      if replies == [] then Err(ModelFault)
      else if steps == 0 then Err(GraphRecursionError)
      else
        var m := msgs + [AsMsg(replies[0])];
        RunFrom(Next(AgentNode, ShouldContinue(m, ctx.config, ctx.tokens, ctx.authTools)), m, replies[1..], steps - 1, ctx)
    case ToolsNode =>
      (match ToolNodeResult(msgs, ctx.tools, ctx.config)
       case Err(e) => Err(e)
       case Ok(out) =>
         if steps == 0 then Err(GraphRecursionError)
         else RunFrom(AgentNode, msgs + out, replies, steps - 1, ctx))
    case RequestLoginNode =>
      if steps == 0 then Err(GraphRecursionError)
      else RunFrom(EndNode, msgs + LoginReply(), replies, steps - 1, ctx)
  }

  function InputTurns(input: Option<Msg>): seq<Msg>
  {
    if input.Some? then [input.value] else []
  }

  /** `ainvoke`: the input turn (if any) is added to the stored turns, and
      the graph runs from its entry point under the default step limit. */
  function Invoke(start: seq<Msg>, input: Option<Msg>, replies: seq<Reply>, ctx: Context): Result<seq<Msg>>
  {
    RunFrom(EntryPoint, start + InputTurns(input), replies, RecursionLimit, ctx)
  }

  /** The graph runner: the node loop of the compiled graph, consuming one
      model reply per agent step and one step of the limit per node. */
  method RunCycle(start: seq<Msg>, input: Option<Msg>, replies: seq<Reply>, ctx: Context)
    returns (r: Result<seq<Msg>>)
    ensures r == Invoke(start, input, replies, ctx)
  {
    var msgs := start + InputTurns(input);
    var node := EntryPoint;
    var steps := RecursionLimit;
    var k := 0;
    while node != EndNode
      invariant 0 <= k <= |replies|
      invariant node == ToolsNode ==> |msgs| > 0
      invariant RunFrom(node, msgs, replies[k..], steps, ctx) == Invoke(start, input, replies, ctx)
      decreases steps
    {
      if node == AgentNode {
        if k == |replies| {
          return Err(ModelFault);
        }
        assert replies[k..][0] == replies[k] && replies[k..][1..] == replies[k + 1..];
        var m := msgs + [AsMsg(replies[k])];
        var route := ShouldContinue(m, ctx.config, ctx.tokens, ctx.authTools);
        assert RunFrom(AgentNode, msgs, replies[k..], steps, ctx)
            == if steps == 0 then Err(GraphRecursionError)
               else RunFrom(Next(AgentNode, route), m, replies[k + 1..], steps - 1, ctx);
        msgs := m;
        node := Next(AgentNode, route);
        k := k + 1;
      } else if node == ToolsNode {
        var out := ToolNode(msgs, ctx.tools, ctx.config);
        if out.Err? {
          return Err(out.error);
        }
        assert RunFrom(ToolsNode, msgs, replies[k..], steps, ctx)
            == if steps == 0 then Err(GraphRecursionError)
               else RunFrom(AgentNode, msgs + out.value, replies[k..], steps - 1, ctx);
        msgs := msgs + out.value;
        node := Next(ToolsNode, Continue);
      } else {
        assert RunFrom(RequestLoginNode, msgs, replies[k..], steps, ctx)
            == if steps == 0 then Err(GraphRecursionError)
               else RunFrom(EndNode, msgs + LoginReply(), replies[k..], steps - 1, ctx);
        msgs := msgs + LoginReply();
        node := Next(RequestLoginNode, End);
      }
      if steps == 0 {
        return Err(GraphRecursionError);
      }
      steps := steps - 1;
    }
    return Ok(msgs);
  }

  // ---- Properties of a run ----

  /** A run only appends: the turns it started from are a prefix of the result. */
  lemma {:induction false} RunExtends(node: Node, msgs: seq<Msg>, replies: seq<Reply>, steps: nat, ctx: Context)
    requires node == ToolsNode ==> |msgs| > 0
    requires RunFrom(node, msgs, replies, steps, ctx).Ok?
    ensures var final := RunFrom(node, msgs, replies, steps, ctx).value;
      |msgs| <= |final| && final[..|msgs|] == msgs
    decreases steps
  {
    match node
    case EndNode =>
    case AgentNode =>
      var m := msgs + [AsMsg(replies[0])];
      RunExtends(Next(AgentNode, ShouldContinue(m, ctx.config, ctx.tokens, ctx.authTools)), m, replies[1..], steps - 1, ctx);
      ExtendsShorter(msgs, [AsMsg(replies[0])], RunFrom(node, msgs, replies, steps, ctx).value);
    case ToolsNode =>
      var out := ToolNodeResult(msgs, ctx.tools, ctx.config).value;
      RunExtends(AgentNode, msgs + out, replies, steps - 1, ctx);
      ExtendsShorter(msgs, out, RunFrom(node, msgs, replies, steps, ctx).value);
    case RequestLoginNode =>
      RunExtends(EndNode, msgs + LoginReply(), replies, steps - 1, ctx);
      ExtendsShorter(msgs, LoginReply(), RunFrom(node, msgs, replies, steps, ctx).value);
  }

  /** What extends `msgs + extra` extends `msgs`. */
  lemma ExtendsShorter(msgs: seq<Msg>, extra: seq<Msg>, final: seq<Msg>)
    requires |msgs + extra| <= |final| && final[..|msgs + extra|] == msgs + extra
    ensures |msgs| <= |final| && final[..|msgs|] == msgs
  {
    assert final[..|msgs + extra|][..|msgs|] == final[..|msgs|];
  }

  /** A finished run ends on an AI turn with no pending tool calls: the
      model's final answer or the sign-in reply. */
  lemma {:induction false} RunEndsWithAnswer(node: Node, msgs: seq<Msg>, replies: seq<Reply>, steps: nat, ctx: Context)
    requires node != EndNode
    requires node == ToolsNode ==> |msgs| > 0
    requires RunFrom(node, msgs, replies, steps, ctx).Ok?
    ensures var final := RunFrom(node, msgs, replies, steps, ctx).value;
      |final| > 0 && final[|final| - 1].AI? && final[|final| - 1].toolCalls == []
    decreases steps
  {
    match node
    case AgentNode =>
      var m := msgs + [AsMsg(replies[0])];
      var route := ShouldContinue(m, ctx.config, ctx.tokens, ctx.authTools);
      if route != End {
        RunEndsWithAnswer(Next(AgentNode, route), m, replies[1..], steps - 1, ctx);
      }
    case ToolsNode =>
      var out := ToolNodeResult(msgs, ctx.tools, ctx.config).value;
      RunEndsWithAnswer(AgentNode, msgs + out, replies, steps - 1, ctx);
    case RequestLoginNode =>
  }

  /** Total number of tool calls requested by the AI turns of `ms`. */
  function CountCalls(ms: seq<Msg>): nat
  {
    if ms == [] then 0 else (if ms[0].AI? then |ms[0].toolCalls| else 0) + CountCalls(ms[1..])
  }

  lemma {:induction false} CountsAppend(a: seq<Msg>, b: seq<Msg>)
    ensures CountCalls(a + b) == CountCalls(a) + CountCalls(b)
    ensures CountTools(a + b) == CountTools(a) + CountTools(b)
  {
    if a == [] {
      assert a + b == b;
    } else {
      assert (a + b)[1..] == a[1..] + b;
      CountsAppend(a[1..], b);
    }
  }

  lemma {:induction false} CountsOfToolTurns(ms: seq<Msg>)
    requires forall i :: 0 <= i < |ms| ==> ms[i].Tool?
    ensures CountCalls(ms) == 0 && CountTools(ms) == |ms|
  {
    if ms != [] {
      CountsOfToolTurns(ms[1..]);
    }
  }

  /** Tool calls already requested but not yet answered when a run is at `node`. */
  function Pending(node: Node, msgs: seq<Msg>): nat
  {
    if node == ToolsNode && |msgs| > 0 && msgs[|msgs| - 1].AI? then |msgs[|msgs| - 1].toolCalls| else 0
  }

  /** With no auth tools (the shipped configuration), a run answers every
      tool call it requests with exactly one tool turn. */
  lemma {:induction false} EveryCallAnswered(node: Node, msgs: seq<Msg>, replies: seq<Reply>, steps: nat, ctx: Context)
    requires ctx.authTools == []
    requires node == ToolsNode ==> |msgs| > 0
    requires RunFrom(node, msgs, replies, steps, ctx).Ok?
    ensures var final := RunFrom(node, msgs, replies, steps, ctx).value;
      |msgs| <= |final| &&
      CountTools(final[|msgs|..]) == CountCalls(final[|msgs|..]) + Pending(node, msgs)
    decreases steps, 1
  {
    RunExtends(node, msgs, replies, steps, ctx);
    var final := RunFrom(node, msgs, replies, steps, ctx).value;
    match node
    case EndNode =>
      assert final[|msgs|..] == [];
    case AgentNode =>
      AgentStepAnswered(msgs, replies, steps, ctx);
    case ToolsNode =>
      ToolsStepAnswered(msgs, replies, steps, ctx);
    case RequestLoginNode =>
      assert final[|msgs|..] == LoginReply();
  }

  lemma {:induction false} AgentStepAnswered(msgs: seq<Msg>, replies: seq<Reply>, steps: nat, ctx: Context)
    requires ctx.authTools == []
    requires RunFrom(AgentNode, msgs, replies, steps, ctx).Ok?
    ensures var final := RunFrom(AgentNode, msgs, replies, steps, ctx).value;
      |msgs| <= |final| && CountTools(final[|msgs|..]) == CountCalls(final[|msgs|..])
    decreases steps, 0
  {
    var final := RunFrom(AgentNode, msgs, replies, steps, ctx).value;
    var reply := AsMsg(replies[0]);
    var m := msgs + [reply];
    var route := ShouldContinue(m, ctx.config, ctx.tokens, ctx.authTools);
    RouteDecision(m, ctx.config, ctx.tokens, ctx.authTools);
    if reply.toolCalls != [] {
      NoAuthToolsNoLogin(reply.toolCalls, ctx.config, ctx.tokens);
    }
    var nextNode := Next(AgentNode, route);
    assert final == RunFrom(nextNode, m, replies[1..], steps - 1, ctx).value;
    EveryCallAnswered(nextNode, m, replies[1..], steps - 1, ctx);
    RunExtends(nextNode, m, replies[1..], steps - 1, ctx);
    assert final[..|m|] == m;
    assert final[|msgs|..] == [reply] + final[|m|..];
    CountsAppend([reply], final[|m|..]);
    assert CountCalls([reply]) == |reply.toolCalls| && CountTools([reply]) == 0;
    assert Pending(nextNode, m) == |reply.toolCalls|;
  }

  /** The tool node's turns are all tool turns, one per pending call. */
  lemma ToolNodeCounts(msgs: seq<Msg>, tools: seq<ToolboxTool>, config: Config)
    requires |msgs| > 0 && ToolNodeResult(msgs, tools, config).Ok?
    ensures var out := ToolNodeResult(msgs, tools, config).value;
      CountCalls(out) == 0 && CountTools(out) == |out| == Pending(ToolsNode, msgs)
  {
    var out := ToolNodeResult(msgs, tools, config).value;
    var last := msgs[|msgs| - 1];
    if last.AI? {
      ToolMessagesShape(last.toolCalls, tools, config, None);
    }
    CountsOfToolTurns(out);
  }

  lemma {:induction false} ToolsStepAnswered(msgs: seq<Msg>, replies: seq<Reply>, steps: nat, ctx: Context)
    requires ctx.authTools == []
    requires |msgs| > 0
    requires RunFrom(ToolsNode, msgs, replies, steps, ctx).Ok?
    ensures var final := RunFrom(ToolsNode, msgs, replies, steps, ctx).value;
      |msgs| <= |final| &&
      CountTools(final[|msgs|..]) == CountCalls(final[|msgs|..]) + Pending(ToolsNode, msgs)
    decreases steps, 0
  {
    var final := RunFrom(ToolsNode, msgs, replies, steps, ctx).value;
    var out := ToolNodeResult(msgs, ctx.tools, ctx.config).value;
    assert final == RunFrom(AgentNode, msgs + out, replies, steps - 1, ctx).value;
    ToolNodeCounts(msgs, ctx.tools, ctx.config);
    EveryCallAnswered(AgentNode, msgs + out, replies, steps - 1, ctx);
    RunExtends(AgentNode, msgs + out, replies, steps - 1, ctx);
    CountsPastPrefix(msgs, out, final);
  }

  /** Counting the turns past `msgs` in a run that extends `msgs + out`. */
  lemma CountsPastPrefix(msgs: seq<Msg>, out: seq<Msg>, final: seq<Msg>)
    requires |msgs + out| <= |final| && final[..|msgs + out|] == msgs + out
    ensures CountCalls(final[|msgs|..]) == CountCalls(out) + CountCalls(final[|msgs + out|..])
    ensures CountTools(final[|msgs|..]) == CountTools(out) + CountTools(final[|msgs + out|..])
  {
    assert final[|msgs|..] == out + final[|msgs + out|..];
    CountsAppend(out, final[|msgs + out|..]);
  }

  // ---- The step limit ----

  /** A reply that sends the run to the tools node without failing there:
      it requests tools, and its first call names a loaded tool. */
  predicate ToolRound(r: Reply, tools: seq<ToolboxTool>)
  {
    r.toolCalls != [] && FindTool(tools, r.toolCalls[0].name).Some?
  }

  /** One agent-and-tools round trip: two node executions, one reply. */
  lemma RoundTrip(msgs: seq<Msg>, replies: seq<Reply>, steps: nat, ctx: Context)
    requires ctx.authTools == [] && replies != [] && ToolRound(replies[0], ctx.tools) && steps >= 2
    ensures var m := msgs + [AsMsg(replies[0])];
      var out := ToolNodeResult(m, ctx.tools, ctx.config);
      && out.Ok?
      && RunFrom(AgentNode, msgs, replies, steps, ctx)
         == RunFrom(AgentNode, m + out.value, replies[1..], steps - 2, ctx)
  {
    var m := msgs + [AsMsg(replies[0])];
    assert m[|m| - 1] == AsMsg(replies[0]);
    NoAuthToolsNoLogin(replies[0].toolCalls, ctx.config, ctx.tokens);
    ToolNodeFailsIff(m, ctx.tools, ctx.config);
  }

  /** A reply without tool calls is the last turn of the run. */
  lemma AnswerEndsRun(msgs: seq<Msg>, replies: seq<Reply>, steps: nat, ctx: Context)
    requires replies != [] && replies[0].toolCalls == [] && steps >= 1
    ensures RunFrom(AgentNode, msgs, replies, steps, ctx) == Ok(msgs + [AsMsg(replies[0])])
  {
    var m := msgs + [AsMsg(replies[0])];
    assert m[|m| - 1] == AsMsg(replies[0]);
    assert ShouldContinue(m, ctx.config, ctx.tokens, ctx.authTools) == End;
  }

  /** A model that keeps asking for tools runs out of steps: `k` round trips
      need `2k` node executions, so with fewer steps the run raises
      `GraphRecursionError`. */
  lemma {:induction false} ToolLoopExhaustsSteps(msgs: seq<Msg>, replies: seq<Reply>, steps: nat, k: nat, ctx: Context)
    requires ctx.authTools == []
    requires k <= |replies| && steps < 2 * k
    requires forall i :: 0 <= i < k ==> ToolRound(replies[i], ctx.tools)
    ensures RunFrom(AgentNode, msgs, replies, steps, ctx) == Err(GraphRecursionError)
    decreases k
  {
    var m := msgs + [AsMsg(replies[0])];
    if steps < 2 {
      assert m[|m| - 1] == AsMsg(replies[0]);
      NoAuthToolsNoLogin(replies[0].toolCalls, ctx.config, ctx.tokens);
      ToolNodeFailsIff(m, ctx.tools, ctx.config);
    } else {
      RoundTrip(msgs, replies, steps, ctx);
      var out := ToolNodeResult(m, ctx.tools, ctx.config).value;
      assert forall i :: 0 <= i < k - 1 ==> replies[1..][i] == replies[i + 1];
      ToolLoopExhaustsSteps(m + out, replies[1..], steps - 2, k - 1, ctx);
    }
  }

  /** ... and with `2k + 1` steps or more, `k` round trips and a final
      answer complete. */
  lemma {:induction false} ToolLoopFits(msgs: seq<Msg>, replies: seq<Reply>, steps: nat, k: nat, ctx: Context)
    requires ctx.authTools == []
    requires k < |replies| && replies[k].toolCalls == [] && 2 * k + 1 <= steps
    requires forall i :: 0 <= i < k ==> ToolRound(replies[i], ctx.tools)
    ensures RunFrom(AgentNode, msgs, replies, steps, ctx).Ok?
    decreases k
  {
    if k == 0 {
      AnswerEndsRun(msgs, replies, steps, ctx);
    } else {
      RoundTrip(msgs, replies, steps, ctx);
      var m := msgs + [AsMsg(replies[0])];
      var out := ToolNodeResult(m, ctx.tools, ctx.config).value;
      var rest := replies[1..];
      forall i | 0 <= i < k - 1
        ensures ToolRound(rest[i], ctx.tools)
      {
        assert rest[i] == replies[i + 1];
      }
      assert rest[k - 1] == replies[k];
      ToolLoopFits(m + out, rest, steps - 2, k - 1, ctx);
    }
  }

  /** Under the default limit of 25 steps, a turn of `k` tool round trips
      followed by an answer completes exactly when `k <= 12`; the thirteenth
      round trip raises `GraphRecursionError`. */
  lemma RecursionLimitBoundary(start: seq<Msg>, input: Option<Msg>, replies: seq<Reply>, k: nat, ctx: Context)
    requires ctx.authTools == []
    requires k < |replies| && replies[k].toolCalls == []
    requires forall i :: 0 <= i < k ==> ToolRound(replies[i], ctx.tools)
    ensures Invoke(start, input, replies, ctx).Ok? <==> k <= 12
    ensures k > 12 ==> Invoke(start, input, replies, ctx) == Err(GraphRecursionError)
  {
    if k <= 12 {
      ToolLoopFits(start + InputTurns(input), replies, RecursionLimit, k, ctx);
    } else {
      ToolLoopExhaustsSteps(start + InputTurns(input), replies, RecursionLimit, k, ctx);
    }
  }

  /** The plain-answer scenario: no tool calls, the reply ends the run. */
  lemma PlainAnswer(start: seq<Msg>, prompt: string, ctx: Context)
    ensures Invoke(start, Some(Human(prompt)), [Reply("Hello", [])], ctx)
         == Ok(start + [Human(prompt), AI("Hello", [])])
  {
    var m := start + [Human(prompt)] + [AI("Hello", [])];
    assert m[|m| - 1] == AI("Hello", []);
    assert m == start + [Human(prompt), AI("Hello", [])];
  }

  /** The login scenario: a call to an auth tool while logged out appends
      the sign-in turn and stops, without running any tool. */
  lemma LoginScenario(start: seq<Msg>, input: Option<Msg>, call: ToolCall, rest: seq<Reply>, ctx: Context)
    requires call.name in ctx.authTools && !IsLoggedIn(ctx.config, ctx.tokens)
    ensures Invoke(start, input, [Reply("", [call])] + rest, ctx)
         == Ok(start + InputTurns(input) + [AI("", [call]), AI(LoginText, [])])
  {
    var replies := [Reply("", [call])] + rest;
    var m := start + InputTurns(input) + [AI("", [call])];
    assert m[|m| - 1] == AI("", [call]);
    assert replies[0] == Reply("", [call]) && replies[1..] == rest;
    assert [call][0] == call;
    assert ShouldContinue(m, ctx.config, ctx.tokens, ctx.authTools) == RequestLogin;
    assert RunFrom(RequestLoginNode, m, rest, RecursionLimit - 1, ctx) == Ok(m + LoginReply());
    assert Invoke(start, input, replies, ctx) == RunFrom(RequestLoginNode, m, rest, RecursionLimit - 1, ctx);
    assert m + LoginReply() == start + InputTurns(input) + [AI("", [call]), AI(LoginText, [])];
  }
}
