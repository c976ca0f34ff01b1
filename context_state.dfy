/** The scoped context store (global_state/context_state.py). Stored values
    are immutable `Value`s, so the source's deep and shallow copies are the
    values themselves; what the copies guard against is shown by the
    objects staying apart. */
module ContextState {
  import opened Wrappers
  import opened Values

  class Context {
    /** `self.state`. */
    var state: map<string, Value>

    /** `Context(initial_state)`: an empty state for `None` (or `{}`),
        otherwise the seed. */
    constructor (initialState: Option<map<string, Value>>)
      ensures state == (if initialState.Some? then initialState.value else map[])
    {
      state := if initialState.Some? then initialState.value else map[];
    }

    /** `get(key, default)`. */
    function Get(key: string, default: Value): (r: Value)
      reads this
      ensures key in state ==> r == state[key]
      ensures key !in state ==> r == default
    {
      if key in state then state[key] else default
    }

    /** `set(key, value)`: only `key` changes; returns the same object. */
    method Set(key: string, value: Value) returns (self: Context)
      modifies this
      ensures self == this
      ensures state == old(state)[key := value]
      ensures forall d :: Get(key, d) == value
      ensures forall k, d :: k != key ==> Get(k, d) == old(Get(k, d))
    {
      state := state[key := value];
      self := this;
    }

    /** `update(updates)`: the entries of `updates` win on shared keys, every
        other key keeps its value; returns the same object. */
    method Update(updates: map<string, Value>) returns (self: Context)
      modifies this
      ensures self == this
      ensures state == old(state) + updates
      ensures forall k, d :: k in updates ==> Get(k, d) == updates[k]
      ensures forall k, d :: k !in updates ==> Get(k, d) == old(Get(k, d))
    {
      state := state + updates;
      self := this;
    }

    /** `to_dict()`: a dictionary with the current entries. */
    function ToDict(): (d: map<string, Value>)
      reads this
      ensures d.Keys == state.Keys
      ensures forall k :: k in d ==> d[k] == state[k]
    {
      map k | k in state :: state[k]
    }

    /** `copy()`: a new object holding the same state. */
    method Copy() returns (c: Context)
      ensures fresh(c)
      ensures c.state == state
    {
      c := new Context(Some(ToDict()));
    }

    /** `get_scope(scope, default)`: a dictionary (stored, or the default) is
        returned as a copy with the same entries; anything else as it is. */
    function GetScope(scope: string, default: Value): (r: Value)
      reads this
      ensures Get(scope, default).VDict? ==>
        && r.VDict?
        && r.entries.Keys == Get(scope, default).entries.Keys
        && forall k :: k in r.entries ==> r.entries[k] == Get(scope, default).entries[k]
      ensures !Get(scope, default).VDict? ==> r == Get(scope, default)
    {
      var value := Get(scope, default);
      if value.VDict? then VDict(map k | k in value.entries :: value.entries[k]) else value
    }

    /** `set_scope(scope, value)`: stores a copy of the dictionary under
        `scope` and changes nothing else; returns the same object. */
    method SetScope(scope: string, value: map<string, Value>) returns (self: Context)
      modifies this
      ensures self == this
      ensures state == old(state)[scope := VDict(value)]
      ensures forall d :: GetScope(scope, d) == VDict(value)
      ensures forall k, d :: k != scope ==> Get(k, d) == old(Get(k, d))
    {
      var copied := map k | k in value :: value[k];
      assert copied == value;
      state := state[scope := VDict(copied)];
      self := this;
    }
  }

  /** A `copy()` and its original go separate ways: a write on either one
      leaves the other's state as it was. */
  method CopiesAreIndependent(ctx: Context, key: string, value: Value, updates: map<string, Value>)
    returns (snapshot: Context)
    modifies ctx
    ensures fresh(snapshot)
    ensures snapshot.state == old(ctx.state)[key := value]
    ensures ctx.state == old(ctx.state) + updates
  {
    snapshot := ctx.Copy();
    var s := snapshot.Set(key, value);
    var c := ctx.Update(updates);
  }
}
