/** Conversation turns, the persisted history codec (`Agent.parse_messages`)
    and trace extraction (`Agent.retrieve_trace`), agent/agent.py. */
module Messages {
  import opened Common

  /** One tool invocation requested by the model. */
  datatype ToolCall = ToolCall(name: string, args: map<string, string>, id: string)

  /** A conversation turn. Only AI turns carry a `tool_calls` attribute;
      a tool turn carries `additional_kwargs`. */
  datatype Msg =
    | Human(content: string)
    | AI(content: string, toolCalls: seq<ToolCall>)
    | Tool(name: string, content: string, toolCallId: string, additionalKwargs: map<string, string>)

  /** A persisted history record `{"type": kind, "data": {"content": content}}`.
      `kind` is None when the record has no "type" key; `data` is None when it
      has no "data" key, and `Some(None)` when "data" has no "content" key. */
  datatype HistoryEntry = HistoryEntry(kind: Option<string>, data: Option<Option<string>>)

  /** One trace record `{tool_call_id, results[, sql]}`. */
  datatype TraceEntry = TraceEntry(toolCallId: string, results: string, sql: Option<string>)

  /** The turns a history record can describe. */
  predicate Persistable(m: Msg)
  {
    m.Human? || (m.AI? && m.toolCalls == [])
  }

  /** How one history record becomes a turn: "human" and "ai" map to their
      turn kind with the content carried over, any other type is refused.
      Keys are read in the order `data["type"]`, `data["data"]`,
      `data["data"]["content"]`, so the first missing one is the one raised. */
  function DecodeEntry(e: HistoryEntry): (r: Result<Msg>)
    ensures r.Ok? ==> Persistable(r.value) && e.data == Some(Some(r.value.content))
    ensures r.Ok? <==> e.kind in {Some("human"), Some("ai")} && e.data.Some? && e.data.value.Some?
    ensures r.Ok? ==> (r.value.Human? <==> e.kind == Some("human"))
    ensures r == Err(MessageTypeNotFound) <==> e.kind.Some? && e.kind !in {Some("human"), Some("ai")}
    ensures e.kind.None? ==> r == Err(KeyError("type"))
    ensures r.Err? && e.kind in {Some("human"), Some("ai")} ==>
      r.error == KeyError(if e.data.None? then "data" else "content")
  {
    match e.kind
    case None => Err(KeyError("type"))
    case Some(k) =>
      if k == "human" || k == "ai" then
        match e.data
        case None => Err(KeyError("data"))
        case Some(None) => Err(KeyError("content"))
        case Some(Some(c)) => Ok(if k == "human" then Human(c) else AI(c, []))
      else Err(MessageTypeNotFound)
  }

  /** The history record a persistable turn is stored as. */
  function EncodeEntry(m: Msg): (e: HistoryEntry)
    requires Persistable(m)
    ensures e.data == Some(Some(m.content))
  {
    HistoryEntry(Some(if m.Human? then "human" else "ai"), Some(Some(m.content)))
  }

  /** Decoding inverts encoding ... */
  lemma DecodeEncode(m: Msg)
    requires Persistable(m)
    ensures DecodeEntry(EncodeEntry(m)) == Ok(m)
  {
  }

  /** ... and, because a record is represented by its type and its content
      alone, every record that decodes is the encoding of its turn. This is a
      fact about the representation: extra keys of a real record are not
      carried. */
  lemma EncodeDecode(e: HistoryEntry)
    requires DecodeEntry(e).Ok?
    ensures EncodeEntry(DecodeEntry(e).value) == e
  {
  }

  predicate AllDecode(datas: seq<HistoryEntry>)
  {
    forall i :: 0 <= i < |datas| ==> DecodeEntry(datas[i]).Ok?
  }

  /** The turns a fully decodable history stands for, record by record. */
  function DecodedTurns(datas: seq<HistoryEntry>): seq<Msg>
    requires AllDecode(datas)
  {
    seq(|datas|, i requires 0 <= i < |datas| => DecodeEntry(datas[i]).value)
  }

  /** `parse_messages`: one turn per record, in order; the first record that
      does not decode aborts the whole parse with its error. */
  method ParseMessages(datas: seq<HistoryEntry>) returns (r: Result<seq<Msg>>)
    ensures r.Ok? <==> AllDecode(datas)
    ensures r.Ok? ==> |r.value| == |datas| && r.value == DecodedTurns(datas)
    ensures r.Ok? ==> forall i :: 0 <= i < |datas| ==> Ok(r.value[i]) == DecodeEntry(datas[i])
    ensures r.Err? ==> exists k :: 0 <= k < |datas| && DecodeEntry(datas[k]) == Err(r.error)
                                   && forall i :: 0 <= i < k ==> DecodeEntry(datas[i]).Ok?
  {
    var messages: seq<Msg> := [];
    var n := 0;
    while n < |datas|
      invariant 0 <= n <= |datas| && |messages| == n
      invariant forall i :: 0 <= i < n ==> Ok(messages[i]) == DecodeEntry(datas[i])
    {
      var d := DecodeEntry(datas[n]);
      if d.Err? {
        return Err(d.error);
      }
      messages := messages + [d.value];
      n := n + 1;
    }
    return Ok(messages);
  }

  /** Python truthiness of `additional_kwargs.get("sql")`. */
  predicate HasSql(kwargs: map<string, string>)
  {
    "sql" in kwargs && kwargs["sql"] != ""
  }

  /** The trace record of one tool turn. */
  function TraceOf(m: Msg): (t: TraceEntry)
    requires m.Tool?
    ensures t.sql.Some? <==> HasSql(m.additionalKwargs)
  {
    TraceEntry(m.name, m.content,
               if HasSql(m.additionalKwargs) then Some(m.additionalKwargs["sql"]) else None)
  }

  /** Number of tool turns in `ms`. */
  function CountTools(ms: seq<Msg>): nat
  {
    if ms == [] then 0 else (if ms[0].Tool? then 1 else 0) + CountTools(ms[1..])
  }

  /** The trace of `ms`: one record per tool turn, in order, none for other turns. */
  function Trace(ms: seq<Msg>): seq<TraceEntry>
  {
    if ms == [] then []
    else (if ms[0].Tool? then [TraceOf(ms[0])] else []) + Trace(ms[1..])
  }

  /** `retrieve_trace`: the loop builds exactly the trace of its input. */
  method RetrieveTrace(messages: seq<Msg>) returns (trace: seq<TraceEntry>)
    ensures trace == Trace(messages)
  {
    trace := [];
    var n := 0;
    while n < |messages|
      invariant 0 <= n <= |messages|
      invariant trace + Trace(messages[n..]) == Trace(messages)
    {
      var m := messages[n];
      assert messages[n..][1..] == messages[n + 1..];
      ghost var rest := Trace(messages[n + 1..]);
      if m.Tool? {
        var info := TraceEntry(m.name, m.content, None);
        if HasSql(m.additionalKwargs) {
          info := info.(sql := Some(m.additionalKwargs["sql"]));
        }
        assert info == TraceOf(m);
        assert Trace(messages[n..]) == [info] + rest;
        assert trace + [info] + rest == trace + ([info] + rest);
        trace := trace + [info];
      } else {
        assert Trace(messages[n..]) == rest;
      }
      n := n + 1;
    }
    assert messages[n..] == [];
  }

  /** The trace of a concatenation is the concatenation of the traces. */
  lemma {:induction false} TraceAppend(a: seq<Msg>, b: seq<Msg>)
    ensures Trace(a + b) == Trace(a) + Trace(b)
  {
    if a != [] {
      assert (a + b)[1..] == a[1..] + b;
      TraceAppend(a[1..], b);
    } else {
      assert a + b == b;
    }
  }

  /** One trace record per tool turn. */
  lemma {:induction false} TraceLength(ms: seq<Msg>)
    ensures |Trace(ms)| == CountTools(ms)
  {
    if ms != [] {
      TraceLength(ms[1..]);
    }
  }

  /** Turns that are not tool results contribute nothing to the trace. */
  lemma {:induction false} TraceOfNoTools(ms: seq<Msg>)
    requires forall i :: 0 <= i < |ms| ==> !ms[i].Tool?
    ensures Trace(ms) == []
  {
    if ms != [] {
      TraceOfNoTools(ms[1..]);
    }
  }

  /** Every record of the trace is the record of some tool turn of the input. */
  lemma {:induction false} TraceEntriesFromTools(ms: seq<Msg>, k: nat)
    requires k < |Trace(ms)|
    ensures exists i :: 0 <= i < |ms| && ms[i].Tool? && Trace(ms)[k] == TraceOf(ms[i])
  {
    if ms[0].Tool? {
      if k == 0 {
        assert Trace(ms)[0] == TraceOf(ms[0]);
      } else {
        TraceEntriesFromTools(ms[1..], k - 1);
        var i :| 0 <= i < |ms[1..]| && ms[1..][i].Tool? && Trace(ms[1..])[k - 1] == TraceOf(ms[1..][i]);
        assert ms[i + 1] == ms[1..][i];
      }
    } else {
      TraceEntriesFromTools(ms[1..], k);
      var i :| 0 <= i < |ms[1..]| && ms[1..][i].Tool? && Trace(ms[1..])[k] == TraceOf(ms[1..][i]);
      assert ms[i + 1] == ms[1..][i];
    }
  }
}
