/** The session state machine (internal/core/session/state.go). */
module Session {
  import opened Basics

  datatype State =
    | Disconnected
    | Connecting
    | Authenticating
    | Ready
    | RunningCommand
    | Reconnecting
    | Error

  datatype Event =
    | Connect
    | TransportReady
    | Authenticated
    | CommandStart
    | CommandResult
    | TargetRebooted
    | TransportLost
    | HumanRetry
    | RetriesExhausted
    | Shutdown

  datatype Transition = Transition(to: State, rotatesId: bool)

  function Table(s: State, e: Event): Option<Transition> {
    match (s, e)
    case (Disconnected, Connect) => Some(Transition(Connecting, true))
    case (Connecting, TransportReady) => Some(Transition(Authenticating, false))
    case (Connecting, TransportLost) => Some(Transition(Reconnecting, false))
    case (Connecting, Shutdown) => Some(Transition(Disconnected, false))
    case (Authenticating, Authenticated) => Some(Transition(Ready, false))
    case (Authenticating, TransportLost) => Some(Transition(Reconnecting, false))
    case (Authenticating, Shutdown) => Some(Transition(Disconnected, false))
    case (Ready, CommandStart) => Some(Transition(RunningCommand, false))
    case (Ready, TargetRebooted) => Some(Transition(Authenticating, false))
    case (Ready, TransportLost) => Some(Transition(Reconnecting, false))
    case (Ready, Shutdown) => Some(Transition(Disconnected, false))
    case (RunningCommand, CommandResult) => Some(Transition(Ready, false))
    case (RunningCommand, TargetRebooted) => Some(Transition(Authenticating, false))
    case (RunningCommand, TransportLost) => Some(Transition(Reconnecting, false))
    case (RunningCommand, Shutdown) => Some(Transition(Disconnected, false))
    case (Reconnecting, HumanRetry) => Some(Transition(Connecting, true))
    case (Reconnecting, RetriesExhausted) => Some(Transition(Error, false))
    case (Reconnecting, Shutdown) => Some(Transition(Disconnected, false))
    case (Error, Shutdown) => Some(Transition(Disconnected, false))
    case _ => None
  }

  datatype Session = Session(state: State, id: Bytes)

  /** The session after event `e`; an event the state does not accept changes nothing. */
  function Applied(s: Session, e: Event, minted: Bytes): Session {
    match Table(s.state, e)
    case None => s
    case Some(t) => Session(t.to, if t.rotatesId then minted else s.id)
  }

  /** Every event leads to one state, from wherever it is accepted. */
  lemma EventDecidesState(s: State, e: Event)
    requires Table(s, e).Some?
    ensures Table(s, e).value.to == match e
      case Connect => Connecting
      case TransportReady => Authenticating
      case Authenticated => Ready
      case CommandStart => RunningCommand
      case CommandResult => Ready
      case TargetRebooted => Authenticating
      case TransportLost => Reconnecting
      case HumanRetry => Connecting
      case RetriesExhausted => Error
      case Shutdown => Disconnected
  {
  }

  /** Where each event is accepted: nowhere else. */
  lemma AcceptedIff(s: State, e: Event)
    ensures Table(s, e).Some? <==> match e
      case Connect => s.Disconnected?
      case TransportReady => s.Connecting?
      case Authenticated => s.Authenticating?
      case CommandStart => s.Ready?
      case CommandResult => s.RunningCommand?
      case TargetRebooted => s.Ready? || s.RunningCommand?
      case TransportLost => s.Connecting? || s.Authenticating? || s.Ready? || s.RunningCommand?
      case HumanRetry => s.Reconnecting?
      case RetriesExhausted => s.Reconnecting?
      case Shutdown => !s.Disconnected?
  {
  }

  /** Only a connection or an approved retry gives the session a new identifier. */
  lemma IdRotatesIff(s: Session, e: Event, minted: Bytes)
    requires minted != s.id
    ensures Applied(s, e, minted).id != s.id <==>
      (s.state.Disconnected? && e.Connect?) || (s.state.Reconnecting? && e.HumanRetry?)
  {
  }

  class Machine {
    var state: State
    var sessionId: Bytes

    ghost function View(): Session
      reads this
    {
      Session(state, sessionId)
    }

    constructor (id: Bytes)
      ensures View() == Session(Disconnected, id)
    {
      state := Disconnected;
      sessionId := id;
    }

    method Apply(e: Event, minted: Bytes) returns (ok: bool)
      modifies this
      ensures ok <==> Table(old(state), e).Some?
      ensures View() == Applied(old(View()), e, minted)
    {
      var next := Table(state, e);
      if next == None {
        return false;
      }
      state := next.value.to;
      if next.value.rotatesId {
        sessionId := minted;
      }
      return true;
    }
  }
}
