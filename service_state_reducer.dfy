/** The front end's view of the service (src/state-context.tsx): the last
    status snapshot, the port options and the connected devices, updated
    from the events the native host sends. */
module ServiceStateReducer {
  import opened Service
  import opened Wire
  import HostApp

  /** `ServiceStateState`. */
  datatype ServiceState = ServiceState(midiState: MidiUpdate, portOptions: seq<PortOption>, connectedDevices: seq<DeviceInfo>)

  /** `ServiceStateAction`; `Unhandled` is an action of any other type. */
  datatype ServiceStateAction =
    | MidiUpdateAction(update: MidiUpdate)
    | PortOptionsAction(options: seq<PortOption>)
    | FoundDevicesAction(devices: seq<DeviceInfo>)
    | NoDevicesAction
    | Unhandled(tag: string)

  /** The store's initial state: no snapshot data, no ports, no devices. */
  const INITIAL_STATE: ServiceState := ServiceState(MidiUpdate(map[]), [], [])

  /** `serviceStateReducer`. A snapshot deep-equal to the current one leaves
      the state as it is. */
  function Reduce(state: ServiceState, action: ServiceStateAction): ServiceState
  {
    match action
    case MidiUpdateAction(update) => if update == state.midiState then state else state.(midiState := update)
    case PortOptionsAction(options) => state.(portOptions := options)
    case NoDevicesAction => state.(connectedDevices := [])
    case FoundDevicesAction(devices) => state.(connectedDevices := devices)
    case Unhandled(_) => state
  }

  /** Whether the reducer hands back the very state it was given (which a
      React store takes as "nothing changed"): for a snapshot equal to the
      current one, and for an unhandled action. */
  predicate KeepsState(state: ServiceState, action: ServiceStateAction)
  {
    (action.MidiUpdateAction? && action.update == state.midiState) || action.Unhandled?
  }

  /** Each action writes only its own field; a repeated snapshot and an
      unhandled action change nothing. */
  lemma ReduceTouchesOneField(state: ServiceState, action: ServiceStateAction)
    ensures var r := Reduce(state, action);
      && (KeepsState(state, action) ==> r == state)
      && (action.MidiUpdateAction? ==>
            r.midiState == action.update && r.portOptions == state.portOptions && r.connectedDevices == state.connectedDevices)
      && (action.PortOptionsAction? ==>
            r.portOptions == action.options && r.midiState == state.midiState && r.connectedDevices == state.connectedDevices)
      && (action.NoDevicesAction? ==>
            r.connectedDevices == [] && r.midiState == state.midiState && r.portOptions == state.portOptions)
      && (action.FoundDevicesAction? ==>
            r.connectedDevices == action.devices && r.midiState == state.midiState && r.portOptions == state.portOptions)
  {
  }

  /** Every action is idempotent, and a second identical snapshot is one the
      store keeps as it is. */
  lemma ReduceIdempotent(state: ServiceState, action: ServiceStateAction)
    ensures Reduce(Reduce(state, action), action) == Reduce(state, action)
    ensures action.MidiUpdateAction? ==> KeepsState(Reduce(state, action), action)
  {
  }

  // ---------------------------------------------------------------------------
  // Following the host's events.

  /** The host's events are tagged with the action types of this store. */
  function ActionOf(e: HostApp.AppEvent): ServiceStateAction
  {
    match e
    case MidiUpdateEvent(update) => MidiUpdateAction(update)
    case NoDevices => NoDevicesAction
    case FoundDevices(devices) => FoundDevicesAction(devices)
    case PortOptionsEvent(options) => PortOptionsAction(options)
  }

  /** The store after it has received the events `es`. */
  function Follow(state: ServiceState, es: seq<HostApp.AppEvent>): ServiceState
    decreases |es|
  {
    if es == [] then state
    else Follow(Reduce(state, ActionOf(es[0])), es[1..])
  }

  /** Whatever the host sent, the store lists no devices whenever the device
      status its events imply is "none", and events other than device events
      leave its devices alone. */
  lemma {:induction false} FollowTracksStatus(state: ServiceState, known: bool, es: seq<HostApp.AppEvent>)
    requires !known ==> state.connectedDevices == []
    ensures !HostApp.Status(known, es) ==> Follow(state, es).connectedDevices == []
    ensures (forall i :: 0 <= i < |es| ==> !es[i].FoundDevices? && !es[i].NoDevices?) ==>
      Follow(state, es).connectedDevices == state.connectedDevices
    decreases |es|
  {
    if es != [] {
      var s' := Reduce(state, ActionOf(es[0]));
      var known' := if es[0].NoDevices? then false else if es[0].FoundDevices? then true else known;
      FollowTracksStatus(s', known', es[1..]);
      if forall i :: 0 <= i < |es| ==> !es[i].FoundDevices? && !es[i].NoDevices? {
        assert !es[0].FoundDevices? && !es[0].NoDevices?;
        assert forall i :: 0 <= i < |es[1..]| ==> !es[1..][i].FoundDevices? && !es[1..][i].NoDevices?;
      }
    }
  }

  /** From the initial state, the store lists no devices whenever the
      events it received say there are none. */
  lemma StoreStartsEmpty(es: seq<HostApp.AppEvent>)
    ensures !HostApp.Status(false, es) ==> Follow(INITIAL_STATE, es).connectedDevices == []
  {
    FollowTracksStatus(INITIAL_STATE, false, es);
  }
}
