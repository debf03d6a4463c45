/**
 * The Context of context.py: a registry from state names to states and a
 * reference to the current state. Running an entry behaviour needs the
 * winch, so the operations here return the entry call they make (the state
 * and its arguments) instead of running it.
 */
module Contexts {
  import opened Wrappers
  import opened States

  /** An entry behaviour invoked on a state with positional arguments. */
  datatype Call = Call(state: State, args: seq<string>)

  /** Why a transition could not start: `do_transition` reads the current state's name first. */
  datatype TransitionError = NoCurrentState

  /** Every state is stored under its own name. */
  ghost predicate Keyed(states: map<string, State>)
  {
    forall k :: k in states ==> states[k].name == k
  }

  /** The registry after `add_state(s)`. */
  function Register(states: map<string, State>, s: State): (r: map<string, State>)
    ensures s.name in r && r[s.name] == s
    ensures r.Keys == states.Keys + {s.name}
    ensures forall k :: k in states && k != s.name ==> k in r && r[k] == states[k]
  {
    states[s.GetName() := s]
  }

  lemma RegisterKeyed(states: map<string, State>, s: State)
    requires Keyed(states)
    ensures Keyed(Register(states, s))
  {
  }

  /** The current state after `set_state(name)`: the registered state, or the old one when unknown. */
  function Select(states: map<string, State>, current: Option<State>, name: string): (r: Option<State>)
    ensures name in states ==> r == Some(states[name])
    ensures name !in states ==> r == current
  {
    if name in states then Some(states[name]) else current
  }

  /** Selecting keeps the current state's name in the registry. */
  lemma SelectRegistered(states: map<string, State>, current: Option<State>, name: string)
    requires Keyed(states)
    requires current.Some? ==> current.value.name in states
    ensures var r := Select(states, current, name); r.Some? ==> r.value.name in states
  {
  }

  /** `entry_behavior`: only a State is dispatched to, with the arguments given. */
  function EntryBehavior(toState: Option<State>, args: seq<string>): (r: Option<Call>)
    ensures r.Some? <==> toState.Some?
    ensures toState.Some? ==> r.value.state == toState.value && r.value.args == args
  {
    match toState
    case None => None
    case Some(s) => Some(Call(s, args))
  }

  class Context {
    const name: string
    var states: map<string, State>
    var current: Option<State>

    /** States are kept under their names, and the current state's name is registered. */
    ghost predicate Valid()
      reads this
    {
      Keyed(states) && (current.Some? ==> current.value.name in states)
    }

    /** A new context has no states and no current state. */
    constructor (contextName: string)
      ensures Valid()
      ensures name == contextName && states == map[] && current == None
    {
      name := contextName;
      states := map[];
      current := None;
    }

    /** `add_state`: store `s` under its own name, replacing a same-named state. */
    method AddState(s: State)
      requires Valid()
      modifies this
      ensures Valid()
      ensures states == Register(old(states), s) && current == old(current)
    {
      RegisterKeyed(states, s);
      states := states[s.GetName() := s];
    }

    /** `set_state`: a registered name becomes current; an unknown one changes nothing. */
    method SetState(stateName: string)
      requires Valid()
      modifies this
      ensures Valid()
      ensures states == old(states)
      ensures current == Select(old(states), old(current), stateName)
    {
      if stateName in states {
        current := Some(states[stateName]);
      }
    }

    /** `get_state`: the current state, registered under its name if any. */
    function GetState(): (r: Option<State>)
      reads this
      requires Valid()
      ensures r == current
      ensures r.Some? ==> r.value.name in states && states[r.value.name].name == r.value.name
    {
      current
    }

    /**
     * `do_transition((target, args))`: a registered target becomes current
     * and is entered with `args`; an unknown target keeps the current state
     * and re-enters the registered state of its name with no arguments.
     */
    method DoTransition(target: string, args: seq<string>) returns (r: Result<Call, TransitionError>)
      requires Valid()
      modifies this
      ensures Valid()
      ensures states == old(states)
      ensures old(current) == None ==> r == Failure(NoCurrentState) && current == old(current)
      ensures old(current).Some? && target in states ==>
        current == Some(states[target]) && r == Success(Call(states[target], args))
      ensures old(current).Some? && target !in states ==>
        current == old(current) && r == Success(Call(states[old(current).value.name], []))
    {
      if current.None? {
        return Failure(NoCurrentState);
      }
      var currentName := current.value.GetName();
      if target in states {
        SetState(target);
        var call := EntryBehavior(Some(states[target]), args);
        r := Success(call.value);
      } else {
        var call := EntryBehavior(Some(states[currentName]), []);
        r := Success(call.value);
      }
    }
  }
}
