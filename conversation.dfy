/** The conversation log: numbered turns and per-agent inboxes
    (global_state/state_manager.py, lines 142-216). */
module Conversation {
  import opened Wrappers
  import opened Values
  import opened Messages

  /** `ConversationTurn`. The sender is kept as given (possibly `None`); the
      recipient label is never empty. */
  datatype ConversationTurn = ConversationTurn(
    fromAgent: Option<string>,
    toAgent: string,
    message: SerializableMessage,
    turnNumber: int,
    timestamp: string)

  /** What `add_message` receives: an existing record, or anything else. */
  datatype Incoming = Canonical(msg: SerializableMessage) | Raw(raw: RawMessage)

  /** An agent argument in a boolean context: `None` and `""` are false. */
  predicate Truthy(agent: Option<string>)
  {
    agent.Some? && agent.value != ""
  }

  /** A limit in a boolean context: `None` and `0` are false. */
  predicate LimitSet(limit: Option<int>)
  {
    limit.Some? && limit.value != 0
  }

  function Min(a: int, b: int): int
  {
    if a <= b then a else b
  }

  /** `to_agent or "broadcast"`. */
  function TurnRecipient(toAgent: Option<string>): (shown: string)
    ensures shown != ""
    ensures Truthy(toAgent) <==> Some(shown) == toAgent
    ensures !Truthy(toAgent) ==> shown == "broadcast"
  {
    if Truthy(toAgent) then toAgent.value else "broadcast"
  }

  /** Step 1 of `add_message`: a record is re-stamped with the routing pair;
      anything else goes through `serialize`. */
  function Canonicalize(message: Incoming, fromAgent: Option<string>, toAgent: Option<string>,
                        now: string, render: Renderer): (r: Result<SerializableMessage, DecodeError>)
    ensures r.Failure? <==> message.Raw? && Serialize(message.raw, fromAgent, toAgent, now, render).Failure?
    ensures r.Failure? ==> IsCanonicalDict(message.raw)
    ensures message.Raw? ==> r == Serialize(message.raw, fromAgent, toAgent, now, render)
    ensures message.Canonical? ==>
      r == Success(message.msg.(fromAgent := fromAgent, toAgent := toAgent))
    ensures r.Success? && !(message.Raw? && IsCanonicalDict(message.raw)) ==>
      r.value.fromAgent == fromAgent && r.value.toAgent == toAgent
  {
    match message
    case Canonical(m) => Success(m.(fromAgent := fromAgent, toAgent := toAgent))
    case Raw(raw) => Serialize(raw, fromAgent, toAgent, now, render)
  }

  /** The recipient's copy (lines 183-193): the original's type, content,
      timestamp, metadata and tool fields, the given routing pair, and
      `additional_kwargs` and `conversation_id` at their defaults. */
  function RecipientCopy(m: SerializableMessage, fromAgent: Option<string>, toAgent: Option<string>): (c: SerializableMessage)
    ensures c == m.(additionalKwargs := map[], fromAgent := fromAgent, toAgent := toAgent, conversationId := None)
  {
    SerializableMessage(
      msgType := m.msgType,
      content := m.content,
      timestamp := m.timestamp,
      metadata := m.metadata,
      additionalKwargs := map[],
      fromAgent := fromAgent,
      toAgent := toAgent,
      conversationId := None,
      toolCallId := m.toolCallId,
      toolName := m.toolName,
      toolOutput := m.toolOutput)
  }

  type Queues = map<Option<string>, seq<SerializableMessage>>

  /** An agent's inbox; an agent without an entry has an empty one. */
  function Inbox(queues: Queues, agent: Option<string>): seq<SerializableMessage>
  {
    if agent in queues then queues[agent] else []
  }

  /** Steps 3 and 4 of `add_message` as intended: the sender's inbox and, when
      there is a recipient, the recipient's inbox are each created when
      missing and then appended to. The source tests for the sender's entry
      but creates the recipient's (lines 176-177); `RouteAsWritten` models that. */
  function Route(queues: Queues, fromAgent: Option<string>, toAgent: Option<string>,
                 message: SerializableMessage): (r: Queues)
    ensures r.Keys == queues.Keys + {fromAgent} + (if Truthy(toAgent) then {toAgent} else {})
    ensures !(Truthy(toAgent) && toAgent == fromAgent) ==>
      Inbox(r, fromAgent) == Inbox(queues, fromAgent) + [message]
    ensures Truthy(toAgent) && toAgent != fromAgent ==>
      Inbox(r, toAgent) == Inbox(queues, toAgent) + [RecipientCopy(message, fromAgent, toAgent)]
    ensures Truthy(toAgent) && toAgent == fromAgent ==>
      Inbox(r, fromAgent) == Inbox(queues, fromAgent) + [message, RecipientCopy(message, fromAgent, toAgent)]
    ensures forall a :: a != fromAgent && !(Truthy(toAgent) && a == toAgent) ==> Inbox(r, a) == Inbox(queues, a)
    ensures forall a :: a in queues && a != fromAgent && !(Truthy(toAgent) && a == toAgent) ==> a in r && r[a] == queues[a]
  {
    var withSender := queues[fromAgent := Inbox(queues, fromAgent) + [message]];
    if Truthy(toAgent) then
      withSender[toAgent := Inbox(withSender, toAgent) + [RecipientCopy(message, fromAgent, toAgent)]]
    else
      withSender
  }

  /** The inboxes after lines 176-194 as written (with `_agent_queues` a
      dictionary), and whether line 178 raises `KeyError`. */
  datatype Routing = Routing(queues: Queues, raised: bool)

  function RouteAsWritten(queues: Queues, fromAgent: Option<string>, toAgent: Option<string>,
                          message: SerializableMessage): (r: Routing)
    ensures r.raised <==> fromAgent !in queues && fromAgent != toAgent
    ensures r.raised ==> r.queues == queues[toAgent := []]
    ensures !r.raised ==> r.queues == Route(queues, fromAgent, toAgent, message)
  {
    var created := if fromAgent !in queues then queues[toAgent := []] else queues;
    if fromAgent !in created then
      Routing(created, true)
    else
      var withSender := created[fromAgent := created[fromAgent] + [message]];
      if Truthy(toAgent) then
        var withRecipient := if toAgent !in withSender then withSender[toAgent := []] else withSender;
        Routing(withRecipient[toAgent := withRecipient[toAgent] + [RecipientCopy(message, fromAgent, toAgent)]], false)
      else
        Routing(withSender, false)
  }

  /** The first message from a new sender to an agent that already has mail:
      as written it raises and empties the recipient's inbox; as intended it
      reaches both inboxes. */
  lemma AsWrittenLosesInbox(earlier: SerializableMessage, message: SerializableMessage)
    ensures var queues := map[Some("B") := [earlier]];
      && RouteAsWritten(queues, Some("A"), Some("B"), message) == Routing(map[Some("B") := []], true)
      && Inbox(Route(queues, Some("A"), Some("B"), message), Some("A")) == [message]
      && Inbox(Route(queues, Some("A"), Some("B"), message), Some("B"))
         == [earlier, RecipientCopy(message, Some("A"), Some("B"))]
  {
    var queues := map[Some("B") := [earlier]];
    assert Some("A") != Some("B");
    assert Some("A") !in queues;
  }

  /** The filter of `get_conversation`: each given agent is the turn's
      sender or its recipient label. */
  predicate Involves(turn: ConversationTurn, agent: Option<string>)
  {
    !Truthy(agent) || turn.fromAgent == agent || Some(turn.toAgent) == agent
  }

  predicate Matches(turn: ConversationTurn, agentA: Option<string>, agentB: Option<string>)
  {
    Involves(turn, agentA) && Involves(turn, agentB)
  }

  /** `xs` is `ys` with some elements left out, the rest in their order. */
  predicate IsSubsequence<T(==)>(xs: seq<T>, ys: seq<T>)
    decreases |ys|
  {
    if xs == [] then true
    else if ys == [] then false
    else (xs[0] == ys[0] && IsSubsequence(xs[1..], ys[1..])) || IsSubsequence(xs, ys[1..])
  }

  /** The comprehension of lines 207-211. */
  function FilterTurns(turns: seq<ConversationTurn>, agentA: Option<string>, agentB: Option<string>): (r: seq<ConversationTurn>)
    ensures IsSubsequence(r, turns)
    ensures forall t :: t in r ==> t in turns && Matches(t, agentA, agentB)
    ensures forall i :: 0 <= i < |turns| && Matches(turns[i], agentA, agentB) ==> turns[i] in r
    ensures !Truthy(agentA) && !Truthy(agentB) ==> r == turns
    decreases |turns|
  {
    if turns == [] then []
    else
      var rest := FilterTurns(turns[1..], agentA, agentB);
      assert forall i :: 1 <= i < |turns| ==> turns[i] == turns[1..][i - 1];
      if Matches(turns[0], agentA, agentB) then [turns[0]] + rest else rest
  }

  /** The filter keeps every matching turn exactly as often as the history
      holds it, and no other turn at all. */
  lemma {:induction false} FilterCounts(turns: seq<ConversationTurn>, agentA: Option<string>, agentB: Option<string>)
    ensures forall t :: (multiset(FilterTurns(turns, agentA, agentB))[t] ==
      if Matches(t, agentA, agentB) then multiset(turns)[t] else 0)
    decreases |turns|
  {
    if turns != [] {
      FilterCounts(turns[1..], agentA, agentB);
      assert turns == [turns[0]] + turns[1..];
      assert multiset(turns) == multiset{turns[0]} + multiset(turns[1..]);
    }
  }

  /** `xs[-limit:]` for a non-zero `limit`: the last `limit` elements when it
      is positive, all but the first `-limit` when it is negative. */
  function TakeLast<T>(xs: seq<T>, limit: int): (r: seq<T>)
    ensures |r| <= |xs| && r == xs[|xs| - |r|..]
    ensures limit > 0 ==> |r| == Min(limit, |xs|)
    ensures limit < 0 ==> |r| == |xs| - Min(-limit, |xs|)
  {
    var start := -limit;
    if start >= 0 then xs[Min(start, |xs|)..]
    else if |xs| + start >= 0 then xs[|xs| + start..]
    else xs
  }

  /** Turn numbers strictly increase along `turns`. */
  predicate Ascending(turns: seq<ConversationTurn>)
  {
    forall i, j :: 0 <= i < j < |turns| ==> turns[i].turnNumber < turns[j].turnNumber
  }

  /** A subsequence keeps only elements of the whole. */
  lemma {:induction false} SubsequenceMembers<T>(xs: seq<T>, ys: seq<T>)
    requires IsSubsequence(xs, ys)
    ensures forall t :: t in xs ==> t in ys
    decreases |ys|
  {
    if xs == [] {
    } else if xs[0] == ys[0] && IsSubsequence(xs[1..], ys[1..]) {
      SubsequenceMembers(xs[1..], ys[1..]);
      assert xs == [xs[0]] + xs[1..] && ys == [ys[0]] + ys[1..];
    } else {
      SubsequenceMembers(xs, ys[1..]);
      assert ys == [ys[0]] + ys[1..];
    }
  }

  /** In an ascending log, every turn after the first has a larger number. */
  lemma AscendingHead(ys: seq<ConversationTurn>)
    requires ys != [] && Ascending(ys)
    ensures Ascending(ys[1..])
    ensures forall t :: t in ys[1..] ==> ys[0].turnNumber < t.turnNumber
  {
    forall t | t in ys[1..] ensures ys[0].turnNumber < t.turnNumber {
      var k :| 0 <= k < |ys[1..]| && ys[1..][k] == t;
      assert ys[k + 1] == t;
    }
  }

  /** Leaving turns out of an ascending log keeps it ascending. */
  lemma {:induction false} SubsequenceAscending(xs: seq<ConversationTurn>, ys: seq<ConversationTurn>)
    requires IsSubsequence(xs, ys) && Ascending(ys)
    ensures Ascending(xs)
    decreases |ys|
  {
    if xs == [] {
    } else {
      AscendingHead(ys);
      if xs[0] == ys[0] && IsSubsequence(xs[1..], ys[1..]) {
        SubsequenceAscending(xs[1..], ys[1..]);
        SubsequenceMembers(xs[1..], ys[1..]);
        forall j | 0 < j < |xs| ensures xs[0].turnNumber < xs[j].turnNumber {
          assert xs[j] == xs[1..][j - 1];
        }
      } else {
        SubsequenceAscending(xs, ys[1..]);
      }
    }
  }

  /** Turn `i` carries number `i + 1`: numbering is 1-based and gap-free. */
  predicate NumberedFromOne(turns: seq<ConversationTurn>)
  {
    forall i :: 0 <= i < |turns| ==> turns[i].turnNumber == i + 1
  }

  class ConversationHistory {
    /** `_conversations`, the log. */
    var conversations: seq<ConversationTurn>
    /** `_agent_queues`, the inboxes, keyed by agent. */
    var agentQueues: Queues

    ghost predicate Valid()
      reads this
    {
      NumberedFromOne(conversations)
    }

    constructor ()
      ensures Valid()
      ensures conversations == [] && agentQueues == map[]
    {
      conversations := [];
      agentQueues := map[];
    }

    /** `add_message`. `now` is the clock read by a record built here, and
        `turnNow` the one read by the new turn. On an exception raised by
        `serialize`, returned in `raised`, nothing changes. */
    method AddMessage(message: Incoming, fromAgent: Option<string>, toAgent: Option<string>,
                      now: string, turnNow: string, render: Renderer) returns (raised: Option<DecodeError>)
      requires Valid()
      modifies this
      ensures Valid()
      ensures var c := Canonicalize(message, fromAgent, toAgent, now, render);
        if c.Failure? then
          raised == Some(c.error) && conversations == old(conversations) && agentQueues == old(agentQueues)
        else
          && raised == None
          && conversations == old(conversations) + [ConversationTurn(fromAgent, TurnRecipient(toAgent), c.value, |old(conversations)| + 1, turnNow)]
          && agentQueues == Route(old(agentQueues), fromAgent, toAgent, c.value)
    {
      var c := Canonicalize(message, fromAgent, toAgent, now, render);
      if c.Failure? {
        return Some(c.error);
      }
      var m := c.value;
      var turn := ConversationTurn(fromAgent, TurnRecipient(toAgent), m, |conversations| + 1, turnNow);
      conversations := conversations + [turn];
      assert NumberedFromOne(conversations);

      Deliver(m, fromAgent, toAgent);
      raised := None;
    }

    /** Steps 3 and 4 of `add_message` (lines 176-194): append the message
        to the sender's inbox and, when there is a recipient, a copy to the
        recipient's, creating each inbox when it is missing. */
    method Deliver(m: SerializableMessage, fromAgent: Option<string>, toAgent: Option<string>)
      modifies this
      ensures conversations == old(conversations)
      ensures agentQueues == Route(old(agentQueues), fromAgent, toAgent, m)
    {
      // The source tests for the sender's entry but creates the recipient's;
      // here the sender's own inbox is the one created.
      if fromAgent !in agentQueues {
        agentQueues := agentQueues[fromAgent := []];
      }
      agentQueues := agentQueues[fromAgent := agentQueues[fromAgent] + [m]];
      assert agentQueues == old(agentQueues)[fromAgent := Inbox(old(agentQueues), fromAgent) + [m]];

      if Truthy(toAgent) {
        ghost var withSender := agentQueues;
        if toAgent !in agentQueues {
          agentQueues := agentQueues[toAgent := []];
        }
        var copy := RecipientCopy(m, fromAgent, toAgent);
        agentQueues := agentQueues[toAgent := agentQueues[toAgent] + [copy]];
        assert agentQueues == withSender[toAgent := Inbox(withSender, toAgent) + [copy]];
      }
    }

    /** `get_conversation`: the turns that involve every given agent, in log
        order, cut to the slice `[-limit:]` when a limit is given. */
    function GetConversation(agentA: Option<string>, agentB: Option<string>, limit: Option<int>): (r: seq<ConversationTurn>)
      reads this
      ensures var matching := FilterTurns(conversations, agentA, agentB);
        && |r| <= |matching| && r == matching[|matching| - |r|..]
        && (!LimitSet(limit) ==> r == matching)
        && (LimitSet(limit) && limit.value > 0 ==> |r| == Min(limit.value, |matching|))
        && (LimitSet(limit) && limit.value < 0 ==> |r| == |matching| - Min(-limit.value, |matching|))
      ensures forall t :: t in r ==> t in conversations && Matches(t, agentA, agentB)
      ensures !Truthy(agentA) && !Truthy(agentB) && !LimitSet(limit) ==> r == conversations
      ensures Valid() ==> Ascending(r)
    {
      var matching := FilterTurns(conversations, agentA, agentB);
      var filtered := if Truthy(agentA) || Truthy(agentB) then matching else conversations;
      assert filtered == matching;
      var r := if LimitSet(limit) then TakeLast(filtered, limit.value) else filtered;
      SuffixFacts(r, matching);
      assert Valid() ==> Ascending(matching) by {
        if Valid() {
          assert Ascending(conversations);
          SubsequenceAscending(matching, conversations);
        }
      }
      r
    }
  }

  /** A suffix keeps only elements of the whole and keeps them ascending. */
  lemma SuffixFacts(r: seq<ConversationTurn>, xs: seq<ConversationTurn>)
    requires |r| <= |xs| && r == xs[|xs| - |r|..]
    ensures forall t :: t in r ==> t in xs
    ensures Ascending(xs) ==> Ascending(r)
  {
    forall t | t in r ensures t in xs {
      var i :| 0 <= i < |r| && r[i] == t;
      assert xs[|xs| - |r| + i] == t;
    }
  }

  /** Three turns A to B, B to C and A to C: the turns involving A are the
      first and the third, those involving both A and C only the third. */
  lemma FilterExample(m: SerializableMessage, ts: string)
    ensures var t1 := ConversationTurn(Some("A"), "B", m, 1, ts);
      var t2 := ConversationTurn(Some("B"), "C", m, 2, ts);
      var t3 := ConversationTurn(Some("A"), "C", m, 3, ts);
      && FilterTurns([t1, t2, t3], Some("A"), None) == [t1, t3]
      && FilterTurns([t1, t2, t3], Some("A"), Some("C")) == [t3]
      && TakeLast([t1, t2, t3], 2) == [t2, t3]
  {
    var t1 := ConversationTurn(Some("A"), "B", m, 1, ts);
    var t2 := ConversationTurn(Some("B"), "C", m, 2, ts);
    var t3 := ConversationTurn(Some("A"), "C", m, 3, ts);
    var turns := [t1, t2, t3];
    assert turns[1..] == [t2, t3] && turns[1..][1..] == [t3] && turns[1..][1..][1..] == [];
    assert Matches(t1, Some("A"), None) && !Matches(t2, Some("A"), None) && Matches(t3, Some("A"), None);
    assert !Matches(t1, Some("A"), Some("C")) && !Matches(t2, Some("A"), Some("C")) && Matches(t3, Some("A"), Some("C"));
    assert FilterTurns([t3], Some("A"), None) == [t3];
    assert FilterTurns([t2, t3], Some("A"), None) == [t3];
    assert FilterTurns(turns, Some("A"), None) == [t1] + [t3];
    assert FilterTurns([t3], Some("A"), Some("C")) == [t3];
    assert FilterTurns([t2, t3], Some("A"), Some("C")) == [t3];
  }
}
