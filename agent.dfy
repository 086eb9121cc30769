/** The session manager of agent/agent.py: the `Agent` class with its
    session-to-token index, the lazily built graph, and the checkpoint store
    the graph writes to; and the transport's session dictionary. */
module Sessions {
  import opened Common
  import opened Messages
  import opened Graph

  const BaseGreeting := "ສະບາຍດີ! BCEL ຍິນດີໃຫ້ບໍລິການ. ທ່ານຕ້ອງການສອບຖາມຂໍ້ມູນຜະລິດຕະພັນ ຫຼື ບໍລິການດ້ານໃດແດ່? (Hello! Welcome to BCEL. How can I assist you with our banking products and services today?)"

  /** `BASE_HISTORY`: the default greeting record. */
  const BaseHistory := HistoryEntry(Some("ai"), Some(Some(BaseGreeting)))

  function PersonalGreeting(name: string): string
  {
    "Sabaidee " + name + "! Welcome to BCEL assistance. How can I help you today?"
  }

  /** `get_base_history`: a greeting personalised with the user's name when
      `user_info` is present (a missing `name` raises), else `BASE_HISTORY`.
      Either greeting decodes to a single AI turn. */
  function GetBaseHistory(userInfo: Option<map<string, string>>): (r: Result<HistoryEntry>)
    ensures userInfo.None? ==> r == Ok(BaseHistory)
    ensures r.Err? <==> userInfo.Some? && "name" !in userInfo.value
    ensures r.Err? ==> r.error == KeyError("name")
    ensures userInfo.Some? && "name" in userInfo.value ==>
      r.Ok? && r.value.data == Some(Some(PersonalGreeting(userInfo.value["name"])))
    ensures r.Ok? ==> DecodeEntry(r.value).Ok? && DecodeEntry(r.value).value.AI?
  {
    if userInfo.Some? then
      if "name" in userInfo.value then Ok(HistoryEntry(Some("ai"), Some(Some(PersonalGreeting(userInfo.value["name"])))))
      else Err(KeyError("name"))
    else Ok(BaseHistory)
  }

  /** `get_config`: thread id, one getter under "my_google_service" that
      reads this session's token, and an empty checkpoint namespace. The
      getter is evaluated when called, so it sees the token index as it is
      then: `get_user_id_token(uuid)`, None for an unknown id. */
  function GetConfig(id: string): (c: Config)
    ensures c.configurable.Some? && c.configurable.value.threadId == id && c.configurable.value.checkpointNs == ""
    ensures GettersOf(c).Keys == {GoogleService}
    ensures forall tokens: map<string, string> ::
      CallGetter(GettersOf(c)[GoogleService], tokens) == (if id in tokens then Some(tokens[id]) else None)
  {
    Config(Some(Configurable(id, Some(map[GoogleService := TokenOf(id)]), "")))
  }

  /** A session counts as logged in exactly when its stored token is a
      non-empty string; the empty token set at creation counts as logged out. */
  lemma LoggedInIffToken(id: string, tokens: map<string, string>)
    ensures IsLoggedIn(GetConfig(id), tokens) <==> id in tokens && tokens[id] != ""
  {
  }

  // ---- The checkpoint store, as assumed of the library ----

  /** `update_state(config, {"messages": turns})`: the turns are appended
      to the thread's messages (assumed of the `add_messages` reducer for
      turns without ids). */
  function UpdateState(store: map<string, seq<Msg>>, id: string, turns: seq<Msg>): map<string, seq<Msg>>
  {
    store[id := (if id in store then store[id] else []) + turns]
  }

  /** `put(empty_checkpoint())`: the thread is left with no messages channel. */
  function PutEmpty(store: map<string, seq<Msg>>, id: string): map<string, seq<Msg>>
  {
    store - {id}
  }

  /** A thread between turns: empty, or ending in a turn that is not a tool
      result (a loaded history turn, a final answer or the sign-in reply). */
  predicate Settled(turns: seq<Msg>)
  {
    turns == [] || !turns[|turns| - 1].Tool?
  }

  predicate AllSettled(store: map<string, seq<Msg>>)
  {
    forall id :: id in store ==> Settled(store[id])
  }

  /** Emptying a thread and then writing turns to it replaces the thread. */
  lemma PutThenUpdate(store: map<string, seq<Msg>>, id: string, turns: seq<Msg>)
    ensures UpdateState(PutEmpty(store, id), id, turns) == store[id := turns]
  {
    var emptied := PutEmpty(store, id);
    assert id !in emptied && [] + turns == turns;
    assert UpdateState(emptied, id, turns).Keys == store[id := turns].Keys;
  }

  /** Replacing a thread by one that ends in an AI turn keeps every thread settled. */
  lemma StoreSettled(store: map<string, seq<Msg>>, id: string, turns: seq<Msg>)
    requires AllSettled(store)
    requires |turns| > 0 && turns[|turns| - 1].AI?
    ensures AllSettled(store[id := turns])
  {
  }

  /** Appending turns that are not tool results keeps every thread settled. */
  lemma UpdateStateSettled(store: map<string, seq<Msg>>, id: string, turns: seq<Msg>)
    requires AllSettled(store)
    requires forall i :: 0 <= i < |turns| ==> !turns[i].Tool?
    ensures AllSettled(UpdateState(store, id, turns))
  {
    var t := (if id in store then store[id] else []) + turns;
    if turns == [] {
      assert t == (if id in store then store[id] else []);
    } else {
      assert t[|t| - 1] == turns[|turns| - 1];
    }
  }

  /** The graph input for a prompt: a human turn only for a truthy prompt. */
  function InputFor(userPrompt: Option<string>): Option<Msg>
  {
    if userPrompt.Some? && userPrompt.value != "" then Some(Human(userPrompt.value)) else None
  }

  /** `{"output", "trace", "state"}` of `user_session_invoke`. */
  datatype Response = Response(output: string, trace: seq<TraceEntry>, state: seq<Msg>)

  /** The response for a run that started from `start` and ended in `final`:
      the last turn's content, and the trace of the turns from index
      `len(start) - 1` on (a Python index, negative for an empty start). */
  function Respond(start: seq<Msg>, final: seq<Msg>): Response
    requires |final| > 0
  {
    Response(final[|final| - 1].content, Trace(SliceFrom(final, |start| - 1)), final)
  }

  /** When the stored turns end in a non-tool turn, the trace holds exactly
      the tool turns the run appended, and none from earlier runs. */
  lemma TraceCoversNewTurns(start: seq<Msg>, input: Option<Msg>, replies: seq<Reply>, ctx: Context)
    requires |start| > 0 && !start[|start| - 1].Tool?
    requires Invoke(start, input, replies, ctx).Ok?
    ensures var final := Invoke(start, input, replies, ctx).value;
      |start| <= |final| && Respond(start, final).trace == Trace(final[|start|..])
  {
    var msgs := start + InputTurns(input);
    RunExtends(EntryPoint, msgs, replies, RecursionLimit, ctx);
    RunEndsWithAnswer(EntryPoint, msgs, replies, RecursionLimit, ctx);
    ExtendedPastSettled(start, InputTurns(input), Invoke(start, input, replies, ctx).value);
  }

  /** The trace slice starts one turn before the new turns; when that turn
      is not a tool turn it adds nothing. */
  lemma TraceAfterSettledPrefix(start: seq<Msg>, final: seq<Msg>)
    requires 0 < |start| <= |final| && final[..|start|] == start && !start[|start| - 1].Tool?
    ensures Respond(start, final).trace == Trace(final[|start|..])
  {
    var from := SliceFrom(final, |start| - 1);
    assert from == [final[|start| - 1]] + final[|start|..];
    TraceAppend([final[|start| - 1]], final[|start|..]);
    TraceOfNoTools([final[|start| - 1]]);
  }

  /** What `user_session_invoke` relies on of a completed run from a settled
      thread: it ends in an AI turn, and its trace covers the new turns. */
  lemma RunResponds(start: seq<Msg>, input: Option<Msg>, replies: seq<Reply>, ctx: Context, final: seq<Msg>)
    requires Settled(start) && Invoke(start, input, replies, ctx).Ok?
    requires final == Invoke(start, input, replies, ctx).value
    ensures |final| > 0 && final[|final| - 1].AI?
    ensures start != [] ==> |start| <= |final| && Respond(start, final).trace == Trace(final[|start|..])
  {
    var msgs := start + InputTurns(input);
    RunExtends(EntryPoint, msgs, replies, RecursionLimit, ctx);
    RunEndsWithAnswer(EntryPoint, msgs, replies, RecursionLimit, ctx);
    ExtendedPastSettled(start, InputTurns(input), final);
  }

  /** A run's result that extends a settled thread: its trace from the
      thread's last turn on covers just the appended turns. */
  lemma ExtendedPastSettled(start: seq<Msg>, extra: seq<Msg>, final: seq<Msg>)
    requires Settled(start) && |start + extra| <= |final| && final[..|start + extra|] == start + extra
    requires |final| > 0
    ensures start != [] ==> |start| <= |final| && Respond(start, final).trace == Trace(final[|start|..])
  {
    if start != [] {
      assert final[..|start + extra|][..|start|] == start;
      TraceAfterSettledPrefix(start, final);
    }
  }


  /** With an empty stored history the slice index is -1, so the trace sees
      only the final AI turn and is empty, whatever tools the run used. */
  lemma EmptyHistoryHidesTrace(input: Option<Msg>, replies: seq<Reply>, ctx: Context)
    requires Invoke([], input, replies, ctx).Ok?
    ensures var final := Invoke([], input, replies, ctx).value;
      |final| > 0 && Respond([], final).trace == []
  {
    RunEndsWithAnswer(EntryPoint, [] + InputTurns(input), replies, RecursionLimit, ctx);
    var final := Invoke([], input, replies, ctx).value;
    assert SliceFrom(final, -1) == [final[|final| - 1]];
    TraceOfNoTools([final[|final| - 1]]);
  }

  /** A completed run's output is the text of a final AI turn, one that
      requests no tools. */
  lemma OutputIsFinalAnswer(start: seq<Msg>, input: Option<Msg>, replies: seq<Reply>, ctx: Context)
    requires Invoke(start, input, replies, ctx).Ok?
    ensures var final := Invoke(start, input, replies, ctx).value;
      |final| > 0 && final[|final| - 1].AI? && final[|final| - 1].toolCalls == []
      && Respond(start, final).output == final[|final| - 1].content
  {
    RunEndsWithAnswer(EntryPoint, start + InputTurns(input), replies, RecursionLimit, ctx);
  }

  /** The transport's session dictionary; `None` stands for an absent key. */
  class Session {
    var uuid: Option<string>
    var history: Option<seq<HistoryEntry>>
    var userInfo: Option<map<string, string>>

    constructor (uuid: Option<string>, history: Option<seq<HistoryEntry>>, userInfo: Option<map<string, string>>)
      ensures this.uuid == uuid && this.history == history && this.userInfo == userInfo
    {
      this.uuid := uuid;
      this.history := history;
      this.userInfo := userInfo;
    }
  }

  class Agent {
    /** `_user_sessions`: session id to token. */
    var userSessions: map<string, string>
    /** `_langgraph_app` (and `_checkpointer`): None until the first session
        is created; the built graph is bound to the tools loaded then. */
    var app: Option<seq<ToolboxTool>>
    /** The checkpointer's messages channel per thread id. */
    var store: map<string, seq<Msg>>

    constructor ()
      ensures userSessions == map[] && app == None && store == map[]
      ensures Valid()
    {
      userSessions := map[];
      app := None;
      store := map[];
    }

    /** Every stored thread is settled: runs store only completed turns. */
    predicate Valid()
      reads this
    {
      AllSettled(store)
    }

    /** `user_session_exist`. A session that does not exist is never logged
        in: its getter finds no token. */
    predicate SessionExist(id: string)
      reads this
      ensures !SessionExist(id) ==> !IsLoggedIn(GetConfig(id), userSessions)
    {
      id in userSessions
    }

    /** `get_user_id_token`: the stored token, None for an unknown id. */
    function GetUserIdToken(id: string): (t: Option<string>)
      reads this
      ensures t.Some? <==> SessionExist(id)
    {
      if id in userSessions then Some(userSessions[id]) else None
    }

    /** `set_user_session_header`: the token is stored for this id, and no
        other id's token changes. */
    method SetUserSessionHeader(id: string, token: string)
      requires Valid()
      modifies this
      ensures Valid()
      ensures GetUserIdToken(id) == Some(token)
      ensures forall other :: other != id ==> GetUserIdToken(other) == old(GetUserIdToken(other))
      ensures userSessions == old(userSessions)[id := token]
      ensures store == old(store) && app == old(app)
    {
      userSessions := userSessions[id := token];
    }

    /** `user_session_create`: build the graph once, mint an id only when
        the session has none, seed the greeting only when it has no history,
        load the parsed history into the store and register an empty token. */
    method UserSessionCreate(session: Session, freshUuid: string, loadedTools: seq<ToolboxTool>)
      returns (r: Outcome)
      requires Valid()
      modifies this, session
      ensures Valid()
      ensures app == if old(app).Some? then old(app) else Some(loadedTools)
      ensures session.uuid == if old(session.uuid).Some? then old(session.uuid) else Some(freshUuid)
      ensures session.history == if old(session.history).Some? then old(session.history) else Some([BaseHistory])
      ensures session.userInfo == old(session.userInfo)
      ensures r == Pass <==> AllDecode(session.history.value)
      ensures r.Fail? ==> userSessions == old(userSessions) && store == old(store)
      ensures r.Fail? ==> exists k :: 0 <= k < |session.history.value| && DecodeEntry(session.history.value[k]) == Err(r.error)
                                      && forall i :: 0 <= i < k ==> DecodeEntry(session.history.value[i]).Ok?
      ensures r == Pass ==>
        && userSessions == old(userSessions)[session.uuid.value := ""]
        && store == UpdateState(old(store), session.uuid.value, DecodedTurns(session.history.value))
        && SessionExist(session.uuid.value)
        && GetUserIdToken(session.uuid.value) == Some("")
        && !IsLoggedIn(GetConfig(session.uuid.value), userSessions)
    {
      if app.None? {
        app := Some(loadedTools);
      }
      if session.uuid.None? {
        session.uuid := Some(freshUuid);
      }
      var id := session.uuid.value;
      if session.history.None? {
        session.history := Some([BaseHistory]);
      }
      var history := ParseMessages(session.history.value);
      if history.Err? {
        return Fail(history.error);
      }
      forall i | 0 <= i < |history.value|
        ensures !history.value[i].Tool?
      {
        assert Ok(history.value[i]) == DecodeEntry(session.history.value[i]);
      }
      UpdateStateSettled(store, id, history.value);
      store := UpdateState(store, id, history.value);
      userSessions := userSessions[id := ""];
      LoggedInIffToken(id, userSessions);
      return Pass;
    }

    /** `user_session_invoke`: read the stored turns (the graph must be
        built and the thread must have messages), run the graph with a human
        turn for a truthy prompt, store the final turns and respond with the
        last turn's content and the trace from index `len(start) - 1`. A
        model fault leaves the store as it was. */
    method UserSessionInvoke(id: string, userPrompt: Option<string>, replies: seq<Reply>, authTools: seq<string>)
      returns (r: Result<Response>)
      requires Valid()
      modifies this
      ensures Valid()
      ensures userSessions == old(userSessions) && app == old(app)
      ensures old(app).None? ==> r == Err(AttributeError("get_state")) && store == old(store)
      ensures old(app).Some? && id !in old(store) ==> r == Err(KeyError("messages")) && store == old(store)
      ensures old(app).Some? && id in old(store) ==>
        var ctx := Context(old(app).value, GetConfig(id), old(userSessions), authTools);
        var run := Invoke(old(store)[id], InputFor(userPrompt), replies, ctx);
        && (run.Err? ==> r == Err(run.error) && store == old(store))
        && (run.Ok? ==> |run.value| > 0 && r == Ok(Respond(old(store)[id], run.value))
                        && store == old(store)[id := run.value])
      ensures r.Ok? ==> id in old(store) && (old(store)[id] != [] ==>
        |old(store)[id]| <= |r.value.state| && r.value.trace == Trace(r.value.state[|old(store)[id]|..]))
    {
      if app.None? {
        return Err(AttributeError("get_state"));
      }
      if id !in store {
        return Err(KeyError("messages"));
      }
      var start := store[id];
      var curMessageIndex := |start| - 1;
      var input := InputFor(userPrompt);
      var ctx := Context(app.value, GetConfig(id), userSessions, authTools);
      var run := RunCycle(start, input, replies, ctx);
      if run.Err? {
        return Err(run.error);
      }
      var messages := run.value;
      RunResponds(start, input, replies, ctx, messages);
      var trace := RetrieveTrace(SliceFrom(messages, curMessageIndex));
      var output := messages[|messages| - 1].content;
      StoreSettled(store, id, messages);
      store := store[id := messages];
      r := Ok(Response(output, trace, messages));
    }

    /** `user_session_reset`: the history must be present; it becomes one
        greeting, the stored turns are replaced by that greeting alone, and
        the token index is left as it was. */
    method UserSessionReset(session: Session, id: string) returns (r: Outcome)
      requires Valid()
      modifies this, session
      ensures Valid()
      ensures userSessions == old(userSessions) && app == old(app)
      ensures session.uuid == old(session.uuid) && session.userInfo == old(session.userInfo)
      ensures old(session.history).None? ==>
        r == Fail(KeyError("history")) && session.history == None && store == old(store)
      ensures old(session.history).Some? ==>
        var base := GetBaseHistory(session.userInfo);
        && (base.Err? ==> r == Fail(base.error) && session.history == None && store == old(store))
        && (base.Ok? ==> session.history == Some([base.value]))
        && (base.Ok? && old(app).None? ==> r == Fail(AttributeError("put")) && store == old(store))
        && (base.Ok? && old(app).Some? ==>
              r == Pass && store == old(store)[id := [DecodeEntry(base.value).value]])
    {
      if session.history.None? {
        return Fail(KeyError("history"));
      }
      session.history := None;
      var base := GetBaseHistory(session.userInfo);
      if base.Err? {
        return Fail(base.error);
      }
      session.history := Some([base.value]);
      var history := ParseMessages(session.history.value);
      var turns := history.value;
      if app.None? {
        return Fail(AttributeError("put"));
      }
      assert turns == [DecodeEntry(base.value).value] by {
        assert turns[0] == DecodeEntry(session.history.value[0]).value;
      }
      StoreSettled(store, id, turns);
      PutThenUpdate(store, id, turns);
      store := PutEmpty(store, id);
      store := UpdateState(store, id, turns);
      return Pass;
    }

    /** `user_session_signout`: the thread's checkpoint is emptied, then the
        id is deleted from the token index, which raises for an unknown id. */
    method UserSessionSignout(id: string) returns (r: Outcome)
      requires Valid()
      modifies this
      ensures Valid()
      ensures app == old(app)
      ensures old(app).None? ==>
        r == Fail(AttributeError("put")) && store == old(store) && userSessions == old(userSessions)
      ensures old(app).Some? ==> store == PutEmpty(old(store), id)
      ensures old(app).Some? && id in old(userSessions) ==>
        r == Pass && userSessions == old(userSessions) - {id}
      ensures old(app).Some? && id !in old(userSessions) ==>
        r == Fail(KeyError(id)) && userSessions == old(userSessions)
      ensures r == Pass ==> !SessionExist(id) && GetUserIdToken(id) == None
    {
      if app.None? {
        return Fail(AttributeError("put"));
      }
      store := PutEmpty(store, id);
      if id !in userSessions {
        return Fail(KeyError(id));
      }
      userSessions := userSessions - {id};
      return Pass;
    }
  }

  /** A client of the session manager: creating a session stores the
      greeting, and a prompt answered without tools comes back as the
      reply's text. */
  method SessionCreateInvoke(tools: seq<ToolboxTool>, prompt: string)
    requires prompt != ""
  {
    var agent := new Agent();
    var session := new Session(None, None, None);
    var created := agent.UserSessionCreate(session, "id-1", tools);
    assert DecodeEntry(BaseHistory).Ok?;
    assert created == Pass && session.uuid == Some("id-1");
    assert agent.SessionExist("id-1") && agent.GetUserIdToken("id-1") == Some("");
    assert agent.store["id-1"] == [AI(BaseGreeting, [])];

    PlainAnswer([AI(BaseGreeting, [])], prompt, Context(tools, GetConfig("id-1"), map["id-1" := ""], []));
    var reply := agent.UserSessionInvoke("id-1", Some(prompt), [Reply("Hello", [])], []);
    assert reply.Ok? && reply.value.output == "Hello";
  }

  /** The rest of a session's life: signing in records the token, a reset
      keeps it, and signing out forgets it, once. */
  method SessionLifecycle(tools: seq<ToolboxTool>)
  {
    var agent := new Agent();
    var session := new Session(None, None, None);
    var created := agent.UserSessionCreate(session, "id-1", tools);
    assert DecodeEntry(BaseHistory).Ok?;
    assert created == Pass && session.uuid == Some("id-1");

    agent.SetUserSessionHeader("id-1", "token");
    assert agent.GetUserIdToken("id-1") == Some("token");

    var reset := agent.UserSessionReset(session, "id-1");
    assert reset == Pass && agent.GetUserIdToken("id-1") == Some("token");
    assert agent.store["id-1"] == [AI(BaseGreeting, [])];

    var out := agent.UserSessionSignout("id-1");
    assert out == Pass && !agent.SessionExist("id-1") && agent.GetUserIdToken("id-1") == None;
    var again := agent.UserSessionSignout("id-1");
    assert again == Fail(KeyError("id-1"));
  }
}
