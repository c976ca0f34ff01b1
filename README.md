# Shared conversation and context state of a multi-agent system, in Dafny

This project models the state substrate that the agents of the system share:

- **Message canonicalisation** (`Messages`): the record `SerializableMessage`,
  its `to_dict` / `from_dict` pair, and `MessageSerializer.serialize`, which turns
  a dictionary, one of the four LangChain message classes (AI, human, system,
  tool) or any other value into that record; `serialize_list` and
  `deserialize_list` apply it element by element.
- **Conversation log** (`Conversation`): `ConversationHistory`, a class whose
  `add_message` appends a numbered `ConversationTurn` and routes the message to
  the sender's and the recipient's inboxes, and whose `get_conversation` filters
  the log by participant and keeps the most recent turns.
- **Scoped context store** (`ContextState`): `Context`, a class over a string-keyed
  map with `get`, `set`, `update`, `to_dict`, `copy`, `get_scope` and `set_scope`.

Python values (`Any`) are the datatype `Values.Value` (None, booleans, integers,
strings, lists and string-keyed dictionaries). Raw messages are
`Messages.RawMessage`: `Native(v)` is any plain value (a dictionary among them),
and `AIMsg`, `HumanMsg`, `SystemMsg` and `ToolMsg` carry the attributes `serialize`
reads. Agent names are `Option<string>`; `None` and `""` are both false where the
source tests them (`Conversation.Truthy`), and a limit is `Option<int>` with `None`
and `0` false. The clock (`datetime.now()`) and Python's `str(...)` are parameters
(`now`, `turnNow`, and `render: Value -> string`). Exceptions are `Result` values:
`Failure(UnexpectedKeyword)` and `Failure(MissingArgument)` are the `TypeError`s of
`cls(**data)`.

Where the code and its design part ways, the model either follows the code as
written or, where the code as written cannot run at all, models the evidently
intended behaviour and says so:

- `to_dict`, `from_dict` and `to_langchain` (state_manager.py lines 46-69) are
  indented at module level, below the `SerializableMessage` dataclass rather
  than inside it. As written, the record has no such methods: the calls
  `SerializableMessage.from_dict(message)` (line 78), `.to_dict()` (line 136)
  and `SerializableMessage.from_dict(msg)` (line 139) raise `AttributeError`
  on every input that reaches them. The model takes these functions to be the
  methods they were evidently meant to be (`asdict(self)` and `cls(**data)`),
  and everything said below about `from_dict` is about that intended method.
- `serialize` is not total. A dictionary with `type` and `content` goes to
  `from_dict`. The intended method raises on a key that names no field, on a
  missing required field and, in the model, on an ill-typed value.
  `Messages.Serialize` proves that this branch is the only one that can fail.
- In that branch the `from_agent` / `to_agent` arguments are ignored, and
  `add_message` does not re-stamp the result, so the logged message keeps the
  dictionary's own routing fields.
- `get_conversation` with a negative limit returns `log[-limit:]`, which drops the
  first `-limit` matching turns. `Conversation.TakeLast` models this.
- The source initialises `_agent_queues` as a list (state_manager.py line 154).
  As written, every `add_message` whose `serialize` step returns (any input
  except a dictionary carrying `type` and `content`, which raises at line 78
  first) therefore raises `TypeError` at line 177, after the turn was already
  appended at line 174. The model stores the inboxes in a map, as the rest of
  the class uses them.
- The inbox key mismatch of lines 176-177 is the finding below. The model routes
  as intended (`Conversation.Route`) and also models the code as written
  (`Conversation.RouteAsWritten`).

Turn numbering is kept as the object invariant `ConversationHistory.Valid()`:
turn `i` has number `i + 1`. The constructor establishes it. Each successful
`AddMessage` keeps it and appends exactly one turn, numbered one past the old
length, and leaves the earlier turns' values unchanged. So after N successful
calls the turn numbers are exactly 1..N. A call whose `serialize` raises changes
nothing. Records are values here. In the source the log and the inboxes hold
the caller's own object, so re-adding that object rewrites earlier entries (see
"Left out").

## Model

| member | source | states |
|---|---|---|
| `Messages.ParseType` | global_state/state_manager.py:20-25 | a string names a message type exactly when it is one of the five enumeration values, and that type's string is the input |
| `Messages.Defaults` | global_state/state_manager.py:27-43 | the nine defaulted fields are every field except `type` and `content` |
| `Messages.ToDict` | global_state/state_manager.py:46-47 | `to_dict` yields one entry per record field, each holding a value of the field's type |
| `Messages.FromDict` | global_state/state_manager.py:49-51 | a key that names no field raises UnexpectedKeyword; a missing `type` or `content` raises MissingArgument; a value that does not fit its field raises IllTyped; it succeeds exactly when the keys are fields, both required keys are present and every value fits; on success the record's dictionary is the defaults overlaid with the input |
| `Messages.ToDictInjective` | global_state/state_manager.py:46-47 | two records with equal dictionaries are equal, so `to_dict` loses nothing |
| `Messages.RoundTrip` | global_state/state_manager.py:46-51 | `from_dict(to_dict(m)) == m` field for field, whatever the clock |
| `Messages.Serialize` | global_state/state_manager.py:75-132 | only a dictionary carrying `type` and `content` can fail, and it is rebuilt by `from_dict` without the routing arguments; every other input succeeds, stamped with `from_agent`/`to_agent`, the clock, default `additional_kwargs` and `conversation_id`. Another dictionary becomes SYSTEM with content `str(dict)` and the dictionary as metadata. AI becomes AI with `additional_kwargs` as metadata. Human and System get their type and empty metadata. Tool becomes TOOL with `tool_output == content` and the call id and name copied. Anything else becomes SYSTEM with content `str(x)`, empty metadata and no tool fields (also the no-LangChain branch, lines 86-92) |
| `Messages.SerializeIdempotent` | global_state/state_manager.py:76-78 | serialising the dictionary of a serialised message gives that message back, whatever routing or clock the second call gets |
| `Messages.SerializeList` | global_state/state_manager.py:134-136 | succeeds exactly when every element serialises; then it has the input's length and item i is `to_dict(serialize(xs[i]))`; a failure is the exception of the first element that raises |
| `Messages.DeserializeList` | global_state/state_manager.py:137-139 | succeeds exactly when every element decodes; then it has the input's length and item i is `from_dict(ds[i])`; a failure is the exception of the first element that raises |
| `Messages.ListRoundTrip` | global_state/state_manager.py:134-139 | `deserialize_list(serialize_list(xs))` succeeds with the length of `xs`, and item i equals `serialize(xs[i])` |
| `Conversation.TurnRecipient` | global_state/state_manager.py:170 | the turn's recipient label is never empty; it is the given recipient exactly when that one is non-empty, otherwise `"broadcast"` |
| `Conversation.Canonicalize` | global_state/state_manager.py:162-167 | an existing record is kept with only `from_agent`/`to_agent` replaced; anything else gives exactly the result of `serialize` with the same routing and clock, so it fails exactly when `serialize` does, which is only for a canonical dictionary; all other results carry the given routing pair |
| `Conversation.RecipientCopy` | global_state/state_manager.py:183-193 | the recipient's copy equals the original except that `additional_kwargs` and `conversation_id` are at their defaults and the routing pair is the one given |
| `Conversation.Route` | global_state/state_manager.py:176-194 | the sender's inbox grows by exactly the stamped message; when the recipient is non-empty its inbox grows by exactly the copy (both, in order, if sender and recipient coincide); no other inbox changes; the keys gain only the sender and the non-empty recipient |
| `Conversation.RouteAsWritten` | global_state/state_manager.py:176-194 | as written, the call raises exactly when the sender has no inbox and differs from the recipient, and it then leaves the recipient's inbox emptied; otherwise the result is that of `Route` |
| `Conversation.AsWrittenLosesInbox` | global_state/state_manager.py:176-178 | a first message from A to B, who already holds one message, raises and empties B's inbox as written, while the intended routing gives A `[m]` and B the earlier message followed by the copy |
| `Conversation.FilterTurns` | global_state/state_manager.py:206-211 | the result is an in-order subsequence of the log whose every turn involves each non-empty filter as sender or recipient, and every such turn of the log is in it; with no filter it is the whole log |
| `Conversation.FilterCounts` | global_state/state_manager.py:206-211 | every matching turn occurs in the result exactly as often as in the log, and a non-matching turn not at all |
| `Conversation.TakeLast` | global_state/state_manager.py:213-214 | `xs[-limit:]` is a suffix; for a positive limit its length is `min(limit, len)`, for a negative one `len - min(-limit, len)` |
| `Conversation.SubsequenceAscending` | global_state/state_manager.py:207-211 | leaving turns out of a log with increasing turn numbers keeps them increasing, so the filtered log stays in log order |
| `Conversation.FilterExample` | global_state/state_manager.py:206-214 | for turns A to B, B to C and A to C, filtering on A gives turns 1 and 3, on A and C gives turn 3, and a limit of 2 gives turns 2 and 3 |
| `Conversation.ConversationHistory.constructor` | global_state/state_manager.py:152-155 | a new history has an empty log and no inboxes |
| `Conversation.ConversationHistory.AddMessage` | global_state/state_manager.py:157-194 | on a serialisation failure it reports the exception and changes nothing; otherwise it appends exactly one turn numbered old length + 1, labelled with the recipient or `"broadcast"`, leaves the earlier turns' values unchanged, routes the inboxes as `Route` says, and keeps the numbering 1..N |
| `Conversation.ConversationHistory.Deliver` | global_state/state_manager.py:176-194 | the inboxes become exactly `Route` of the old ones, created lazily per agent; the log is untouched |
| `Conversation.ConversationHistory.GetConversation` | global_state/state_manager.py:197-216 | the result is a suffix of the filtered log: all of it without a limit, the last `min(limit, count)` matches for a positive limit; each of its turns is in the log and matches the filters; with no filter and no limit it is the whole log; in a valid log its turn numbers increase |
| `ContextState.Context.constructor` | global_state/context_state.py:6-7 | `None` gives an empty state, otherwise the state equals the seed |
| `ContextState.Context.Get` | global_state/context_state.py:9-10 | the stored value when the key is present, otherwise the default; it reads the state and changes nothing |
| `ContextState.Context.Set` | global_state/context_state.py:12-14 | afterwards `get(key)` is the value for every default, every other key reads as before, and the same object is returned |
| `ContextState.Context.Update` | global_state/context_state.py:15-17 | the state becomes `state + updates`, so keys of `updates` read their new values, every other key reads as before, and the same object is returned |
| `ContextState.Context.ToDict` | global_state/context_state.py:19-20 | a map with exactly the state's keys and values |
| `ContextState.Context.Copy` | global_state/context_state.py:22-23 | a new object whose state equals the current one |
| `ContextState.Context.GetScope` | global_state/context_state.py:25-30 | a dictionary (stored or default) comes back as a dictionary with the same entries; any other value comes back as stored, or the default when absent; the state does not change |
| `ContextState.Context.SetScope` | global_state/context_state.py:32-34 | afterwards `get_scope(scope)` returns the given dictionary's contents for every default, every other key reads as before, and the same object is returned |
| `ContextState.CopiesAreIndependent` | global_state/context_state.py:22-23 | after `copy()`, a `set` on the copy and an `update` on the original each leave the other's state as it was |

## Left out

- `to_langchain` (state_manager.py lines 53-69) is not modelled. It builds third-party LangChain objects.
- The `threading.RLock` (lines 155, 162, 203) is not modelled: the log is sequential. The lock covers only lines 163-167, not the appends, and that race is outside a sequential model.
- The `LANGCHAIN_AVAILABLE` switch is not modelled. The four LangChain classes are always available. Without them every non-dictionary input takes lines 86-92, which give the same record as the fallback for a `Native` value.
- `datetime.now()` is not modelled. Timestamps are parameters given as opaque strings.
- Python's `str(...)` is the parameter `render`. Its text depends on the interpreter.
- Messages.FromDict: a field value that does not fit the typed record (for example a `type` string outside the enumeration, or a non-string `content`) is refused with `IllTyped`. The Python dataclass would store it unchecked.
- Messages.SerializeList: every element gets the same `now`. Python reads the clock again for each element.
- Messages.DeserializeList: every element that lacks `timestamp` gets the same `now`. In Python, `cls(**data)` runs the `datetime.now()` default factory (state_manager.py line 31) again for each dictionary, so each one gets its own clock reading.
- Messages.Serialize: the input domain is the plain values of `Values.Value` plus the four LangChain classes. Floats, tuples and arbitrary objects cannot be written. Neither can a `ChatMessage`, a `FunctionMessage`, or a `SerializableMessage` handed to `serialize_list`. All of these reach the fallback at lines 120-121 and become SYSTEM messages whose content is `str(x)`, the same output shape the model proves for `Native`. The source also keeps the caller's own dictionary as `metadata`: the input dictionary at line 82, and the AI message's `additional_kwargs` at line 104. The model copies values, so that sharing cannot be observed.
- Conversation.ConversationHistory.AddMessage: object identity is not modelled, so "earlier turns unchanged" holds for the value model only. The source sets `from_agent` / `to_agent` on the caller's own `SerializableMessage` (lines 166-167) and appends that same object to the log (line 171) and the sender's inbox (line 178). Adding one record twice, with different routing, therefore rewrites the routing of the earlier turn's message and of the earlier inbox entry as well; a caller that mutates the record later changes them too. The recipient copy shares its metadata dictionary with the original. The model works on values.
- Conversation.ConversationHistory.GetConversation: the source returns its internal list itself when there is no filter and no limit, so a caller could mutate the log. The model returns a value.
- ContextState.Context.GetScope: the source returns non-dictionary values by reference, and copies dictionaries only shallowly. With immutable values, that aliasing cannot be observed.
- Observability (tracing spans, timing hooks, logging setup) is not modelled: it is I/O and wall-clock time. The subgraph factory is not modelled either: it is asynchronous LLM calls and graph wiring.

## Findings

| source | as written | input that shows it | evidently intended | confidence | as-written member | corrected member |
|---|---|---|---|---|---|---|
| global_state/state_manager.py:176-178 | checks `from_agent not in _agent_queues` but creates `_agent_queues[to_agent]`, then appends to `_agent_queues[from_agent]` | inboxes `{"B": [m0]}`, `add_message(m, "A", "B")`: B's inbox is reset to `[]`, then line 178 raises `KeyError` (after the turn was appended) | create the sender's own inbox when it is missing | not executed; certain for Python dict semantics | `Conversation.RouteAsWritten` | `Conversation.Route` |
