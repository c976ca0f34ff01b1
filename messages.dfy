/** The canonical message record and the normaliser that turns every raw
    message shape into it (global_state/state_manager.py, lines 20-139). */
module Messages {
  import opened Wrappers
  import opened Values

  /** `MessageType`, a string enumeration. */
  datatype MessageType = Human | Ai | System | Tool | Function

  /** The string each enumeration member stands for. */
  function TypeName(t: MessageType): string
  {
    match t
    case Human => "human"
    case Ai => "ai"
    case System => "system"
    case Tool => "tool"
    case Function => "function"
  }

  /** The member whose string is `s`, if any. */
  function ParseType(s: string): (r: Option<MessageType>)
    ensures r.Some? <==> s in {"human", "ai", "system", "tool", "function"}
    ensures r.Some? ==> TypeName(r.value) == s
  {
    if s == "human" then Some(Human)
    else if s == "ai" then Some(Ai)
    else if s == "system" then Some(System)
    else if s == "tool" then Some(Tool)
    else if s == "function" then Some(Function)
    else None
  }

  /** `SerializableMessage`: a flat record of eleven fields. */
  datatype SerializableMessage = SerializableMessage(
    msgType: MessageType,
    content: string,
    timestamp: string,
    metadata: map<string, Value>,
    additionalKwargs: map<string, Value>,
    fromAgent: Option<string>,
    toAgent: Option<string>,
    conversationId: Option<string>,
    toolCallId: Option<string>,
    toolName: Option<string>,
    toolOutput: Option<string>)

  /** The keyword names the record's constructor accepts. */
  const FieldNames: set<string> := {
    "type", "content", "timestamp", "metadata", "additional_kwargs",
    "from_agent", "to_agent", "conversation_id",
    "tool_call_id", "tool_name", "tool_output"
  }

  /** The defaults of the nine fields that have one; the timestamp default
      is the creation instant, passed in as `now`. */
  function Defaults(now: string): (d: map<string, Value>)
    ensures d.Keys == FieldNames - {"type", "content"}
  {
    map[
      "timestamp" := VStr(now),
      "metadata" := VDict(map[]),
      "additional_kwargs" := VDict(map[]),
      "from_agent" := VNone,
      "to_agent" := VNone,
      "conversation_id" := VNone,
      "tool_call_id" := VNone,
      "tool_name" := VNone,
      "tool_output" := VNone
    ]
  }

  function OptStr(o: Option<string>): Value
  {
    match o
    case None => VNone
    case Some(s) => VStr(s)
  }

  /** `to_dict` (`asdict`): one entry per field, every value a string, `None`
      or a dictionary. */
  function ToDict(m: SerializableMessage): (d: map<string, Value>)
    ensures d.Keys == FieldNames
    ensures WellTyped(d)
  {
    map[
      "type" := VStr(TypeName(m.msgType)),
      "content" := VStr(m.content),
      "timestamp" := VStr(m.timestamp),
      "metadata" := VDict(m.metadata),
      "additional_kwargs" := VDict(m.additionalKwargs),
      "from_agent" := OptStr(m.fromAgent),
      "to_agent" := OptStr(m.toAgent),
      "conversation_id" := OptStr(m.conversationId),
      "tool_call_id" := OptStr(m.toolCallId),
      "tool_name" := OptStr(m.toolName),
      "tool_output" := OptStr(m.toolOutput)
    ]
  }

  /** The exceptions `from_dict` (`cls(**data)`) can raise. `IllTyped` is
      raised where the typed record cannot hold the value given for a
      field; the Python dataclass stores such a value unchecked. */
  datatype DecodeError = UnexpectedKeyword | MissingArgument | IllTyped(field: string)

  /** Whether every field present in `data` holds a value of the field's type. */
  predicate WellTyped(data: map<string, Value>)
  {
    && ("type" in data ==> data["type"].VStr? && ParseType(data["type"].s).Some?)
    && ("content" in data ==> data["content"].VStr?)
    && ("timestamp" in data ==> data["timestamp"].VStr?)
    && ("metadata" in data ==> data["metadata"].VDict?)
    && ("additional_kwargs" in data ==> data["additional_kwargs"].VDict?)
    && ("from_agent" in data ==> IsOptStr(data["from_agent"]))
    && ("to_agent" in data ==> IsOptStr(data["to_agent"]))
    && ("conversation_id" in data ==> IsOptStr(data["conversation_id"]))
    && ("tool_call_id" in data ==> IsOptStr(data["tool_call_id"]))
    && ("tool_name" in data ==> IsOptStr(data["tool_name"]))
    && ("tool_output" in data ==> IsOptStr(data["tool_output"]))
  }

  predicate IsOptStr(v: Value)
  {
    v.VNone? || v.VStr?
  }

  function DecodeType(v: Value): (r: Result<MessageType, DecodeError>)
    ensures r.Success? <==> v.VStr? && ParseType(v.s).Some?
    ensures r.Success? ==> v == VStr(TypeName(r.value))
    ensures r.Failure? ==> r.error == IllTyped("type")
  {
    if v.VStr? && ParseType(v.s).Some? then Success(ParseType(v.s).value) else Failure(IllTyped("type"))
  }

  function DecodeStr(name: string, v: Value): (r: Result<string, DecodeError>)
    ensures r.Success? <==> v.VStr?
    ensures r.Success? ==> v == VStr(r.value)
    ensures r.Failure? ==> r.error == IllTyped(name)
  {
    if v.VStr? then Success(v.s) else Failure(IllTyped(name))
  }

  function DecodeDict(name: string, v: Value): (r: Result<map<string, Value>, DecodeError>)
    ensures r.Success? <==> v.VDict?
    ensures r.Success? ==> v == VDict(r.value)
    ensures r.Failure? ==> r.error == IllTyped(name)
  {
    if v.VDict? then Success(v.entries) else Failure(IllTyped(name))
  }

  function DecodeOptStr(name: string, v: Value): (r: Result<Option<string>, DecodeError>)
    ensures r.Success? <==> IsOptStr(v)
    ensures r.Success? ==> v == OptStr(r.value)
    ensures r.Failure? ==> r.error == IllTyped(name)
  {
    if v.VNone? then Success(None)
    else if v.VStr? then Success(Some(v.s))
    else Failure(IllTyped(name))
  }

  /** The record whose fields are the entries of `full`, a dictionary with
      one entry per field; the first ill-typed field in declaration order
      is the one reported. */
  function DecodeFields(full: map<string, Value>): (r: Result<SerializableMessage, DecodeError>)
    requires full.Keys == FieldNames
    ensures r.Success? <==> WellTyped(full)
    ensures r.Success? ==> ToDict(r.value) == full
  {
    var t :- DecodeType(full["type"]);
    var content :- DecodeStr("content", full["content"]);
    var timestamp :- DecodeStr("timestamp", full["timestamp"]);
    var metadata :- DecodeDict("metadata", full["metadata"]);
    var kwargs :- DecodeDict("additional_kwargs", full["additional_kwargs"]);
    var fromAgent :- DecodeOptStr("from_agent", full["from_agent"]);
    var toAgent :- DecodeOptStr("to_agent", full["to_agent"]);
    var conversationId :- DecodeOptStr("conversation_id", full["conversation_id"]);
    var toolCallId :- DecodeOptStr("tool_call_id", full["tool_call_id"]);
    var toolName :- DecodeOptStr("tool_name", full["tool_name"]);
    var toolOutput :- DecodeOptStr("tool_output", full["tool_output"]);
    var m := SerializableMessage(t, content, timestamp, metadata, kwargs, fromAgent, toAgent,
                                 conversationId, toolCallId, toolName, toolOutput);
    Success(m)
  }

  /** The only exception the field decoding raises is an ill-typed field. */
  lemma DecodeFieldsErrors(full: map<string, Value>)
    requires full.Keys == FieldNames
    ensures DecodeFields(full).Failure? ==> DecodeFields(full).error.IllTyped?
  {
  }

  /** `from_dict` (`cls(**data)`): every key must name a field, `type` and
      `content` must be present, and absent fields take their defaults. */
  function FromDict(data: map<string, Value>, now: string): (r: Result<SerializableMessage, DecodeError>)
    ensures !(data.Keys <= FieldNames) ==> r == Failure(UnexpectedKeyword)
    ensures data.Keys <= FieldNames && ("type" !in data || "content" !in data) ==> r == Failure(MissingArgument)
    ensures data.Keys <= FieldNames && "type" in data && "content" in data && !WellTyped(data) ==> r.Failure? && r.error.IllTyped?
    ensures r.Success? <==> data.Keys <= FieldNames && "type" in data && "content" in data && WellTyped(data)
    ensures r.Success? ==> ToDict(r.value) == Defaults(now) + data
  {
    if !(data.Keys <= FieldNames) then Failure(UnexpectedKeyword)
    else if "type" !in data || "content" !in data then Failure(MissingArgument)
    else
      DefaultsFill(data, now);
      DecodeFieldsErrors(Defaults(now) + data);
      DecodeFields(Defaults(now) + data)
  }

  /** Filling in the defaults completes a dictionary that carries `type` and
      `content`, without changing whether it is well typed. */
  lemma DefaultsFill(data: map<string, Value>, now: string)
    requires data.Keys <= FieldNames && "type" in data && "content" in data
    ensures (Defaults(now) + data).Keys == FieldNames
    ensures WellTyped(Defaults(now) + data) <==> WellTyped(data)
  {
    var full := Defaults(now) + data;
    assert WellTyped(Defaults(now));
    assert forall k :: k in full ==> full[k] == if k in data then data[k] else Defaults(now)[k];
  }

  /** What `to_dict` stores under each key. */
  lemma ToDictEntries(m: SerializableMessage)
    ensures var d := ToDict(m);
      && d["type"] == VStr(TypeName(m.msgType))
      && d["content"] == VStr(m.content)
      && d["timestamp"] == VStr(m.timestamp)
      && d["metadata"] == VDict(m.metadata)
      && d["additional_kwargs"] == VDict(m.additionalKwargs)
      && d["from_agent"] == OptStr(m.fromAgent)
      && d["to_agent"] == OptStr(m.toAgent)
      && d["conversation_id"] == OptStr(m.conversationId)
      && d["tool_call_id"] == OptStr(m.toolCallId)
      && d["tool_name"] == OptStr(m.toolName)
      && d["tool_output"] == OptStr(m.toolOutput)
  {
  }

  /** Decoding a record's own dictionary gives the record back. */
  lemma DecodeOwnFields(m: SerializableMessage)
    ensures DecodeFields(ToDict(m)) == Success(m)
  {
    var r := DecodeFields(ToDict(m));
    ToDictInjective(r.value, m);
  }

  /** `from_dict(to_dict(m)) == m`, field for field, whatever the clock says. */
  lemma RoundTrip(m: SerializableMessage, now: string)
    ensures FromDict(ToDict(m), now) == Success(m)
  {
    assert Defaults(now) + ToDict(m) == ToDict(m);
    DecodeOwnFields(m);
  }

  /** Two records with the same dictionary are the same record, so `to_dict`
      loses nothing. */
  lemma ToDictInjective(a: SerializableMessage, b: SerializableMessage)
    requires ToDict(a) == ToDict(b)
    ensures a == b
  {
    ToDictEntries(a);
    ToDictEntries(b);
    assert ParseType(TypeName(a.msgType)) == Some(a.msgType);
    assert ParseType(TypeName(b.msgType)) == Some(b.msgType);
  }

  /** The raw shapes `serialize` accepts. `Native` is any plain Python value,
      a dictionary among them; the other four are the LangChain message
      classes, with the attributes `serialize` reads. */
  datatype RawMessage =
    | Native(v: Value)
    | AIMsg(content: string, additionalKwargs: map<string, Value>)
    | HumanMsg(content: string)
    | SystemMsg(content: string)
    | ToolMsg(content: string, toolCallId: Option<string>, toolName: Option<string>)

  /** A dictionary carrying both `type` and `content`. */
  predicate IsCanonicalDict(raw: RawMessage)
  {
    raw.Native? && raw.v.VDict? && "type" in raw.v.entries && "content" in raw.v.entries
  }

  /** The record built by the constructor calls of `serialize`, which leave
      `additional_kwargs` and `conversation_id` at their defaults. */
  function Built(t: MessageType, content: string, now: string, metadata: map<string, Value>,
                 fromAgent: Option<string>, toAgent: Option<string>,
                 toolCallId: Option<string>, toolName: Option<string>, toolOutput: Option<string>): SerializableMessage
  {
    SerializableMessage(t, content, now, metadata, map[], fromAgent, toAgent, None, toolCallId, toolName, toolOutput)
  }

  /** `MessageSerializer.serialize`. Only the canonical-dictionary branch can
      raise, and only where `from_dict` does; every other shape yields a record
      stamped with the given sender and recipient. */
  function Serialize(raw: RawMessage, fromAgent: Option<string>, toAgent: Option<string>,
                     now: string, render: Renderer): (r: Result<SerializableMessage, DecodeError>)
    ensures r.Failure? ==> IsCanonicalDict(raw)
    ensures IsCanonicalDict(raw) ==> r == FromDict(raw.v.entries, now)
    ensures !IsCanonicalDict(raw) ==>
      && r.Success?
      && r.value.fromAgent == fromAgent && r.value.toAgent == toAgent
      && r.value.timestamp == now
      && r.value.additionalKwargs == map[] && r.value.conversationId == None
    ensures !IsCanonicalDict(raw) && !raw.ToolMsg? ==>
      r.value.toolCallId == None && r.value.toolName == None && r.value.toolOutput == None
    ensures raw.Native? && !IsCanonicalDict(raw) ==>
      && r.value.msgType == System
      && r.value.content == render(raw.v)
      && r.value.metadata == (if raw.v.VDict? then raw.v.entries else map[])
    ensures raw.AIMsg? ==>
      r.value.msgType == Ai && r.value.content == raw.content && r.value.metadata == raw.additionalKwargs
    ensures raw.HumanMsg? ==>
      r.value.msgType == Human && r.value.content == raw.content && r.value.metadata == map[]
    ensures raw.SystemMsg? ==>
      r.value.msgType == System && r.value.content == raw.content && r.value.metadata == map[]
    ensures raw.ToolMsg? ==>
      && r.value.msgType == Tool && r.value.content == raw.content && r.value.metadata == map[]
      && r.value.toolCallId == raw.toolCallId && r.value.toolName == raw.toolName
      && r.value.toolOutput == Some(raw.content)
  {
    match raw
    case Native(v) =>
      if v.VDict? then
        if "type" in v.entries && "content" in v.entries then FromDict(v.entries, now)
        else Success(Built(System, render(v), now, v.entries, fromAgent, toAgent, None, None, None))
      else
        Success(Built(System, render(v), now, map[], fromAgent, toAgent, None, None, None))
    case AIMsg(content, kwargs) =>
      Success(Built(Ai, content, now, kwargs, fromAgent, toAgent, None, None, None))
    case HumanMsg(content) =>
      Success(Built(Human, content, now, map[], fromAgent, toAgent, None, None, None))
    case SystemMsg(content) =>
      Success(Built(System, content, now, map[], fromAgent, toAgent, None, None, None))
    case ToolMsg(content, toolCallId, toolName) =>
      Success(Built(Tool, content, now, map[], fromAgent, toAgent, toolCallId, toolName, Some(content)))
  }

  /** Normalising the dictionary of a normalised message gives the same
      message back, whatever sender, recipient or clock the second call gets. */
  lemma SerializeIdempotent(raw: RawMessage, fromAgent: Option<string>, toAgent: Option<string>,
                            now: string, render: Renderer,
                            fromAgent': Option<string>, toAgent': Option<string>, now': string, render': Renderer)
    requires Serialize(raw, fromAgent, toAgent, now, render).Success?
    ensures var m := Serialize(raw, fromAgent, toAgent, now, render).value;
      Serialize(Native(VDict(ToDict(m))), fromAgent', toAgent', now', render') == Success(m)
  {
    var m := Serialize(raw, fromAgent, toAgent, now, render).value;
    RoundTrip(m, now');
  }

  /** `serialize` followed by `to_dict`. */
  function SerializeToDict(raw: RawMessage, fromAgent: Option<string>, toAgent: Option<string>,
                           now: string, render: Renderer): Result<map<string, Value>, DecodeError>
  {
    var m :- Serialize(raw, fromAgent, toAgent, now, render);
    Success(ToDict(m))
  }

  /** `serialize_list`: `serialize` then `to_dict` on each element, in order;
      the first element that raises makes the whole call raise. */
  function SerializeList(messages: seq<RawMessage>, fromAgent: Option<string>, toAgent: Option<string>,
                         now: string, render: Renderer): (r: Result<seq<map<string, Value>>, DecodeError>)
    ensures r.Success? <==> forall i :: 0 <= i < |messages| ==> Serialize(messages[i], fromAgent, toAgent, now, render).Success?
    ensures r.Success? ==> |r.value| == |messages|
    ensures r.Success? ==> forall i :: 0 <= i < |messages| ==>
      r.value[i] == ToDict(Serialize(messages[i], fromAgent, toAgent, now, render).value)
    ensures r.Failure? ==> exists i :: (
      && 0 <= i < |messages|
      && Serialize(messages[i], fromAgent, toAgent, now, render) == Failure(r.error)
      && forall j :: 0 <= j < i ==> Serialize(messages[j], fromAgent, toAgent, now, render).Success?)
  {
    MapAll(messages, raw => SerializeToDict(raw, fromAgent, toAgent, now, render))
  }

  /** `deserialize_list`: `from_dict` on each element, in order; the first
      element that raises makes the whole call raise. */
  function DeserializeList(dicts: seq<map<string, Value>>, now: string): (r: Result<seq<SerializableMessage>, DecodeError>)
    ensures r.Success? <==> forall i :: 0 <= i < |dicts| ==> FromDict(dicts[i], now).Success?
    ensures r.Success? ==> |r.value| == |dicts|
    ensures r.Success? ==> forall i :: 0 <= i < |dicts| ==> Success(r.value[i]) == FromDict(dicts[i], now)
    ensures r.Failure? ==> exists i :: (0 <= i < |dicts| && FromDict(dicts[i], now) == Failure(r.error)
                                     && forall j :: 0 <= j < i ==> FromDict(dicts[j], now).Success?)
  {
    MapAll(dicts, d => FromDict(d, now))
  }

  /** Item i of `deserialize_list(serialize_list(xs))` is `serialize(xs[i])`. */
  lemma ListRoundTrip(messages: seq<RawMessage>, fromAgent: Option<string>, toAgent: Option<string>,
                      now: string, render: Renderer, now': string)
    requires SerializeList(messages, fromAgent, toAgent, now, render).Success?
    ensures var back := DeserializeList(SerializeList(messages, fromAgent, toAgent, now, render).value, now');
      && back.Success?
      && |back.value| == |messages|
      && forall i :: 0 <= i < |messages| ==> back.value[i] == Serialize(messages[i], fromAgent, toAgent, now, render).value
  {
    var dicts := SerializeList(messages, fromAgent, toAgent, now, render).value;
    forall i | 0 <= i < |dicts|
      ensures FromDict(dicts[i], now') == Success(Serialize(messages[i], fromAgent, toAgent, now, render).value)
    {
      RoundTrip(Serialize(messages[i], fromAgent, toAgent, now, render).value, now');
    }
  }
}
