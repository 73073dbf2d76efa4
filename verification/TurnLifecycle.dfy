/** The lifecycle of one turn: the value it holds and the object that moves it along. */
module TurnLifecycle {
  import opened Common

  datatype TurnState = Created | Active | Completed | Cancelled | Failed {
    predicate IsTerminal() {
      Completed? || Cancelled? || Failed?
    }

    /** The states this one may move to. */
    function Allowed(): set<TurnState> {
      match this
      case Created => {Active}
      case Active => {Completed, Cancelled, Failed}
      case _ => {}
    }
  }

  type TurnId = nat

  datatype Turn = Turn(
    sequence: nat, state: TurnState, ended: bool, interrupted: bool, errorCode: Option<string>)
  {
    /** What the persisted Turn contract validates, plus when an error code may be set. */
    predicate WellFormed() {
      && (ended <==> state.IsTerminal())
      && (interrupted <==> state.Cancelled?)
      && (errorCode.Some? <==> state.Failed?)
    }

    function Transition(target: TurnState): (r: Result<Turn, RuntimeError>)
      ensures r.Ok? <==> target in state.Allowed()
      ensures r.Ok? ==> r.value.state == target && r.value.(state := state) == this
      ensures r.Err? ==> r.error == InvalidStateTransition
    {
      if state.IsTerminal() then Err(InvalidStateTransition)
      else if target !in state.Allowed() then Err(InvalidStateTransition)
      else Ok(this.(state := target))
    }

    function Complete(): (r: Result<Turn, RuntimeError>)
      ensures r.Ok? <==> state.Active?
      ensures r.Ok? ==> r.value.state == Completed
      ensures r.Ok? && WellFormed() ==> r.value.WellFormed() && r.value.sequence == sequence
    {
      match Transition(Completed)
      case Err(e) => Err(e)
      case Ok(t) => Ok(t.(ended := true))
    }

    function Cancel(): (r: Result<Turn, RuntimeError>)
      ensures r.Ok? <==> state.Active?
      ensures r.Ok? ==> r.value.state == Cancelled && r.value.interrupted
      ensures r.Ok? && WellFormed() ==> r.value.WellFormed() && r.value.sequence == sequence
    {
      match Transition(Cancelled)
      case Err(e) => Err(e)
      case Ok(t) => Ok(t.(ended := true, interrupted := true))
    }

    function Fail(code: string): (r: Result<Turn, RuntimeError>)
      ensures r.Ok? <==> state.Active?
      ensures r.Ok? ==> r.value.state == Failed && r.value.errorCode == Some(code)
      ensures r.Ok? && WellFormed() ==> r.value.WellFormed() && r.value.sequence == sequence
    {
      match Transition(Failed)
      case Err(e) => Err(e)
      case Ok(t) => Ok(t.(ended := true, errorCode := Some(code)))
    }
  }

  const NewTurn := Turn(0, Created, false, false, None)

  /** The mutable turn record shared by every activity that works on the turn. */
  class RuntimeTurn {
    const id: TurnId
    const sequence: nat
    var state: TurnState
    var ended: bool
    var interrupted: bool
    var errorCode: Option<string>

    function View(): Turn
      reads this
    {
      Turn(sequence, state, ended, interrupted, errorCode)
    }

    constructor (id: TurnId, sequence: nat)
      ensures this.id == id && View() == NewTurn.(sequence := sequence)
    {
      this.id := id;
      this.sequence := sequence;
      state := Created;
      ended := false;
      interrupted := false;
      errorCode := None;
    }

    method Transition(target: TurnState) returns (error: Option<RuntimeError>)
      modifies this`state
      ensures error == if old(View()).Transition(target).Ok? then None else Some(InvalidStateTransition)
      ensures View() == if error.None? then old(View()).Transition(target).value else old(View())
    {
      if state.IsTerminal() {
        return Some(InvalidStateTransition);
      }
      if target !in state.Allowed() {
        return Some(InvalidStateTransition);
      }
      state := target;
      return None;
    }

    method Activate() returns (error: Option<RuntimeError>)
      modifies this
      ensures error == if old(state).Created? then None else Some(InvalidStateTransition)
      ensures View() == if error.None? then old(View()).(state := Active) else old(View())
    {
      error := Transition(Active);
    }

    method Complete() returns (error: Option<RuntimeError>)
      modifies this
      ensures error == match old(View()).Complete() case Ok(_) => None case Err(e) => Some(e)
      ensures View() == match old(View()).Complete() case Ok(t) => t case Err(_) => old(View())
    {
      error := Transition(Completed);
      if error.None? {
        ended := true;
      }
    }

    method Cancel() returns (error: Option<RuntimeError>)
      modifies this
      ensures error == match old(View()).Cancel() case Ok(_) => None case Err(e) => Some(e)
      ensures View() == match old(View()).Cancel() case Ok(t) => t case Err(_) => old(View())
    {
      error := Transition(Cancelled);
      if error.None? {
        interrupted := true;
        ended := true;
      }
    }

    method Fail(code: string) returns (error: Option<RuntimeError>)
      modifies this
      ensures error == match old(View()).Fail(code) case Ok(_) => None case Err(e) => Some(e)
      ensures View() == match old(View()).Fail(code) case Ok(t) => t case Err(_) => old(View())
    {
      error := Transition(Failed);
      if error.None? {
        errorCode := Some(code);
        ended := true;
      }
    }
  }
}
