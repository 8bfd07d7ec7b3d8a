/** services/follower-gateway/follower_gateway/state_machine.py: the follower's own view of
    the session. Only the transitions that a gateway step can reach are here. */
module StateMachine {
  import opened Protocol

  datatype Machine = Machine(state: SessionState, owner: Option<OperatorId>) {
    predicate IsArmed() { state.Armed? || state.Clutched? }
    predicate IsEstopped() { state.Estopped? }
  }

  const INITIAL := Machine(Disconnected, None)

  function PeerConnected(m: Machine): Machine {
    if m.state.Disconnected? then m.(state := Connected) else m
  }

  /** Ownership moves at once; the state follows only when the owner really changed. */
  function OwnershipReported(m: Machine, owner: Option<OperatorId>): Machine {
    if m.IsEstopped() || owner == m.owner then m.(owner := owner)
    else if owner == None then
      Machine(if m.IsArmed() || m.state.Claimed? || m.state.Frozen? then Ready else m.state, None)
    else
      Machine(if m.state.Disconnected? then Disconnected else Claimed, owner)
  }

  function Enabled(m: Machine): Option<Machine> {
    if m.state.Claimed? then Some(m.(state := Armed)) else None
  }

  function Disabled(m: Machine): Option<Machine> {
    if m.IsArmed() || m.state.Frozen? then Some(m.(state := Claimed)) else None
  }

  function ClutchMoved(m: Machine, engage: bool): Option<Machine> {
    if engage && m.state.Armed? then Some(m.(state := Clutched))
    else if !engage && m.state.Clutched? then Some(m.(state := Armed))
    else None
  }

  function Froze(m: Machine): Machine {
    if m.IsArmed() then m.(state := Frozen) else m
  }

  /** Engaging wins over resetting when a message asks for both. */
  function EstopHandled(m: Machine, engaged: bool, reset: bool): Machine {
    if engaged then m.(state := Estopped)
    else if reset && m.IsEstopped() then m.(state := if m.owner.Some? then Claimed else Ready)
    else m
  }

  class TeleopStateMachine {
    var state: SessionState
    var owner: Option<OperatorId>

    function View(): Machine
      reads this
    {
      Machine(state, owner)
    }

    constructor ()
      ensures View() == INITIAL
    {
      state, owner := Disconnected, None;
    }

    method OnPeerConnected()
      modifies this
      ensures View() == PeerConnected(old(View()))
    {
      if state == Disconnected {
        state := Connected;
      }
    }

    method OnOwnership(newOwner: Option<OperatorId>)
      modifies this
      ensures View() == OwnershipReported(old(View()), newOwner)
    {
      if state == Estopped {
        owner := newOwner;
        return;
      }
      var changed := newOwner != owner;
      owner := newOwner;
      if !changed {
        return;
      }
      if newOwner == None {
        if state in {Claimed, Armed, Clutched, Frozen} {
          state := Ready;
        }
      } else {
        if state in {Connected, Ready} {
          state := Claimed;
        } else if state in {Armed, Clutched, Frozen} {
          state := Claimed;
        }
      }
    }

    method OnEnable() returns (ok: bool)
      modifies this
      ensures ok <==> Enabled(old(View())).Some?
      ensures View() == if ok then Enabled(old(View())).value else old(View())
    {
      if state == Claimed {
        state := Armed;
        return true;
      }
      return false;
    }

    method OnDisable() returns (ok: bool)
      modifies this
      ensures ok <==> Disabled(old(View())).Some?
      ensures View() == if ok then Disabled(old(View())).value else old(View())
    {
      if state in {Armed, Clutched, Frozen} {
        state := Claimed;
        return true;
      }
      return false;
    }

    method OnClutch(engage: bool) returns (ok: bool)
      modifies this
      ensures ok <==> ClutchMoved(old(View()), engage).Some?
      ensures View() == if ok then ClutchMoved(old(View()), engage).value else old(View())
    {
      if engage {
        if state == Armed {
          state := Clutched;
          return true;
        }
        return false;
      }
      if state == Clutched {
        state := Armed;
        return true;
      }
      return false;
    }

    method OnFreeze()
      modifies this
      ensures View() == Froze(old(View()))
    {
      if state in {Armed, Clutched} {
        state := Frozen;
      }
    }

    method OnEstop(engaged: bool, reset: bool)
      modifies this
      ensures View() == EstopHandled(old(View()), engaged, reset)
    {
      if engaged {
        state := Estopped;
        return;
      }
      if reset && state == Estopped {
        state := if owner != None then Claimed else Ready;
      }
    }
  }
}
