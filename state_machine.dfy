/**
 * The lightweight callback-table state machine (Assets/Scripts/Utils/StateMachine.cs).
 *
 * Each registered state has up to three delegates, Enter, Update and Leave,
 * any of which may be null. Running a delegate is recorded as a `Call` in the
 * machine's trace, together with what CurrentState() reported while it ran.
 */
module StateMachines {
  import opened Options

  /** Which of a state's delegates are non-null. */
  datatype Callbacks = Callbacks(hasEnter: bool, hasUpdate: bool, hasLeave: bool)

  datatype Hook = Enter | Update | Leave

  /** One delegate invocation: the hook, its state, and the current state at that moment. */
  datatype Call<T> = Call(hook: Hook, state: T, current: Option<T>)

  /** The calls made by running `from`'s Leave delegate, if there is a current state and it has one. */
  function LeaveCalls<T>(states: map<T, Callbacks>, from: Option<T>): (calls: seq<Call<T>>)
    requires from.Some? ==> from.value in states
    ensures |calls| <= 1
    ensures calls != [] <==> from.Some? && states[from.value].hasLeave
    ensures calls != [] ==> calls[0] == Call(Leave, from.value, from)
  {
    if from.Some? && states[from.value].hasLeave then [Call(Leave, from.value, from)] else []
  }

  /** The calls made by Update in state `s`. */
  function UpdateCalls<T>(states: map<T, Callbacks>, s: T): (calls: seq<Call<T>>)
    requires s in states
    ensures |calls| <= 1
    ensures calls != [] <==> states[s].hasUpdate
    ensures calls != [] ==> calls[0] == Call(Update, s, Some(s))
  {
    if states[s].hasUpdate then [Call(Update, s, Some(s))] else []
  }

  /**
   * The calls made by switching from `from` to `target`: the old Leave, then
   * the new Enter, both while the old state is still current.
   */
  function SwitchCalls<T>(states: map<T, Callbacks>, from: Option<T>, target: T): (calls: seq<Call<T>>)
    requires target in states && (from.Some? ==> from.value in states)
    ensures var leave := LeaveCalls(states, from);
      && |calls| == |leave| + (if states[target].hasEnter then 1 else 0)
      && calls[..|leave|] == leave
      && (states[target].hasEnter ==> calls[|calls| - 1] == Call(Enter, target, from))
  {
    LeaveCalls(states, from) + (if states[target].hasEnter then [Call(Enter, target, from)] else [])
  }

  /**
   * A switch runs the old state's Leave strictly before the new state's Enter,
   * skips null delegates, and both run while CurrentState() still reports the old id.
   */
  lemma {:induction false} SwitchOrder<T>(states: map<T, Callbacks>, from: Option<T>, target: T)
    requires target in states && (from.Some? ==> from.value in states)
    ensures var calls := SwitchCalls(states, from, target);
      && |calls| == (if from.Some? && states[from.value].hasLeave then 1 else 0) + (if states[target].hasEnter then 1 else 0)
      && (forall i :: 0 <= i < |calls| ==> calls[i].current == from)
      && (forall i, j :: 0 <= i < j < |calls| ==> calls[i].hook == Leave && calls[j].hook == Enter)
      && (forall i :: 0 <= i < |calls| && calls[i].hook == Enter ==> calls[i].state == target)
      && (forall i :: 0 <= i < |calls| && calls[i].hook == Leave ==> Some(calls[i].state) == from)
  {
  }

  /** Switching to the state that is already current is not a no-op: it leaves and re-enters it. */
  lemma {:induction false} ReenterRunsBoth<T>(states: map<T, Callbacks>, s: T)
    requires s in states && states[s].hasEnter && states[s].hasLeave
    ensures SwitchCalls(states, Some(s), s) == [Call(Leave, s, Some(s)), Call(Enter, s, Some(s))]
  {
  }

  class StateMachine<T(==)> {
    /** m_States: the registered states by id. */
    var states: map<T, Callbacks>
    /** m_CurrentState: None while no state has been entered or after Shutdown. */
    var current: Option<T>
    /** The delegates run so far, in order. */
    var trace: seq<Call<T>>

    ghost predicate Valid()
      reads this
    {
      current.Some? ==> current.value in states
    }

    constructor ()
      ensures Valid() && states == map[] && current == None && trace == []
    {
      states := map[];
      current := None;
      trace := [];
    }

    /**
     * Add: register `id` with its delegates. `Dictionary.Add` throws on a
     * duplicate id; that is a false result here, with nothing registered.
     */
    method Add(id: T, callbacks: Callbacks) returns (added: bool)
      requires Valid()
      modifies this
      ensures Valid()
      ensures added == (id !in old(states))
      ensures states == if added then old(states)[id := callbacks] else old(states)
      ensures current == old(current) && trace == old(trace)
    {
      if id in states {
        return false;
      }
      states := states[id := callbacks];
      return true;
    }

    /** CurrentState: the id of the current state; the source dereferences null without one. */
    function CurrentState(): (id: T)
      reads this
      requires current.Some?
      ensures current == Some(id)
    {
      current.value
    }

    /** Update: run exactly the current state's Update delegate, or nothing if it is null. */
    method Update()
      requires Valid() && current.Some?
      modifies this
      ensures Valid() && states == old(states) && current == old(current)
      ensures trace == old(trace) + UpdateCalls(states, current.value)
    {
      if states[current.value].hasUpdate {
        trace := trace + [Call(Hook.Update, current.value, current)];
      }
    }

    /** Shutdown: run the current Leave delegate, if any, and leave no current state. */
    method Shutdown()
      requires Valid()
      modifies this
      ensures Valid() && states == old(states) && current == None
      ensures trace == old(trace) + LeaveCalls(states, old(current))
    {
      if current.Some? && states[current.value].hasLeave {
        trace := trace + [Call(Leave, current.value, current)];
      }
      current := None;
    }

    /**
     * SwitchTo: refuse an unknown target and change nothing; otherwise run the
     * old Leave, then the new Enter, and only then make the target current.
     * Re-entering the current state only warns and still runs both.
     */
    method SwitchTo(target: T) returns (switched: bool)
      requires Valid()
      modifies this
      ensures Valid() && states == old(states)
      ensures switched == (target in states)
      ensures !switched ==> current == old(current) && trace == old(trace)
      ensures switched ==> current == Some(target) && trace == old(trace) + SwitchCalls(states, old(current), target)
    {
      if target !in states {
        return false;
      }
      var newState := states[target];
      if current.Some? && states[current.value].hasLeave {
        trace := trace + [Call(Leave, current.value, current)];
      }
      if newState.hasEnter {
        trace := trace + [Call(Enter, target, current)];
      }
      current := Some(target);
      return true;
    }
  }
}
