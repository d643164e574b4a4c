/** The front end's settings store (src/settings-context.tsx): a reducer
    over the application settings, and the wrapper that lets the store start
    undefined until an `INIT` action supplies the loaded settings. */
module SettingsReducer {
  import opened Wrappers
  import opened Wire

  /** `AppSettings` as the front end holds it: per channel, the list of
      (HID code, note) pairs; the shift amount; the note configuration. */
  datatype UiSettings = UiSettings(keymapping: map<int, seq<(int, int)>>, shiftAmount: int, noteConfig: NoteConfig)

  /** `SettingsAction`, without the `INIT` action, which the wrapper handles.
      `Unhandled` is an action of any other type. */
  datatype SettingsAction =
    | Change(settings: UiSettings)
    | ChangeMapping(mapping: seq<(int, int)>, channel: int)
    | NoteShiftChanged(shift: int)
    | ThresholdChanged(threshold: real)
    | VelocityScaleChanged(velocityScale: real)
    | Unhandled(tag: string)

  /** `settingsReducer`. */
  function Reduce(state: UiSettings, action: SettingsAction): UiSettings
  {
    match action
    case Change(settings) => settings
    case NoteShiftChanged(shift) => state.(shiftAmount := shift)
    case ChangeMapping(mapping, channel) => state.(keymapping := state.keymapping[channel := mapping])
    case ThresholdChanged(threshold) => state.(noteConfig := state.noteConfig.(threshold := threshold))
    case VelocityScaleChanged(velocityScale) => state.(noteConfig := state.noteConfig.(velocityScale := velocityScale))
    case Unhandled(_) => state
  }

  /** Each action touches only its own part of the settings: `change`
      replaces everything; the shift, threshold and velocity-scale actions
      set their one field and keep every other; a mapping change sets one
      channel's list and keeps the other channels; an unhandled action
      changes nothing. */
  lemma ReduceTouchesOneField(state: UiSettings, action: SettingsAction)
    ensures var r := Reduce(state, action);
      && (action.Change? ==> r == action.settings)
      && (action.NoteShiftChanged? ==>
            r.shiftAmount == action.shift && r.keymapping == state.keymapping && r.noteConfig == state.noteConfig)
      && (action.ThresholdChanged? ==>
            && r.noteConfig.threshold == action.threshold && r.noteConfig.velocityScale == state.noteConfig.velocityScale
            && r.keymapping == state.keymapping && r.shiftAmount == state.shiftAmount)
      && (action.VelocityScaleChanged? ==>
            && r.noteConfig.velocityScale == action.velocityScale && r.noteConfig.threshold == state.noteConfig.threshold
            && r.keymapping == state.keymapping && r.shiftAmount == state.shiftAmount)
      && (action.ChangeMapping? ==>
            && r.keymapping.Keys == state.keymapping.Keys + {action.channel}
            && r.keymapping[action.channel] == action.mapping
            && (forall c :: c in state.keymapping && c != action.channel ==> r.keymapping[c] == state.keymapping[c])
            && r.shiftAmount == state.shiftAmount && r.noteConfig == state.noteConfig)
      && (action.Unhandled? ==> r == state)
  {
  }

  /** Every action is idempotent: dispatching it twice is dispatching it
      once. */
  lemma ReduceIdempotent(state: UiSettings, action: SettingsAction)
    ensures Reduce(Reduce(state, action), action) == Reduce(state, action)
  {
  }

  /** The part of the settings an action writes, to tell when two actions
      write different parts. */
  datatype Part = Everything | Mapping(channel: int) | Shift | Threshold | VelocityScale | Nothing

  function Writes(action: SettingsAction): Part
  {
    match action
    case Change(_) => Everything
    case ChangeMapping(_, channel) => Mapping(channel)
    case NoteShiftChanged(_) => Shift
    case ThresholdChanged(_) => Threshold
    case VelocityScaleChanged(_) => VelocityScale
    case Unhandled(_) => Nothing
  }

  /** Actions that write different parts, neither of them a `change`,
      commute. */
  lemma IndependentActionsCommute(state: UiSettings, a: SettingsAction, b: SettingsAction)
    requires Writes(a) != Writes(b) && !a.Change? && !b.Change?
    ensures Reduce(Reduce(state, a), b) == Reduce(Reduce(state, b), a)
  {
    if a.ChangeMapping? && b.ChangeMapping? {
      assert state.keymapping[a.channel := a.mapping][b.channel := b.mapping]
          == state.keymapping[b.channel := b.mapping][a.channel := a.mapping];
    }
  }

  /** Two actions that write the same part: the later one wins, and a
      `change` overrides everything dispatched before it. */
  lemma LaterActionWins(state: UiSettings, a: SettingsAction, b: SettingsAction)
    requires Writes(a) == Writes(b) || b.Change?
    ensures Reduce(Reduce(state, a), b) == Reduce(state, b)
  {
    if a.ChangeMapping? && b.ChangeMapping? {
      assert state.keymapping[a.channel := a.mapping][b.channel := b.mapping] == state.keymapping[b.channel := b.mapping];
    }
  }

  // ---------------------------------------------------------------------------
  // The wrapper for a store that starts undefined.

  /** An action for the wrapped reducer: `INIT` with its value, or an action
      of the inner reducer. */
  datatype Lifted<S, A> = Init(value: S) | Inner(action: A)

  /** `isInitAction`. */
  predicate IsInitAction<S, A>(action: Lifted<S, A>)
  {
    action.Init?
  }

  /** `undefinedReducer(reducer)`: `INIT` sets the state whatever it was;
      any other action is passed to the reducer when there is a state and
      leaves the store undefined otherwise. */
  function UndefinedReducer<S, A>(reducer: (S, A) -> S, state: Option<S>, action: Lifted<S, A>): (r: Option<S>)
  {
    if IsInitAction(action) then Some(action.value)
    else if state.Some? then Some(reducer(state.value, action.action))
    else None
  }

  /** The three cases of the wrapper. */
  lemma UndefinedReducerCases<S, A>(reducer: (S, A) -> S, state: Option<S>, action: Lifted<S, A>)
    ensures var r := UndefinedReducer(reducer, state, action);
      && (action.Init? ==> r == Some(action.value))
      && (action.Inner? && state.None? ==> r == None)
      && (action.Inner? && state.Some? ==> r == Some(reducer(state.value, action.action)))
      && (r.None? <==> state.None? && action.Inner?)
  {
  }

  /** The store after a series of actions. */
  function Dispatch<S, A>(reducer: (S, A) -> S, state: Option<S>, actions: seq<Lifted<S, A>>): Option<S>
    decreases |actions|
  {
    if actions == [] then state
    else Dispatch(reducer, UndefinedReducer(reducer, state, actions[0]), actions[1..])
  }

  /** A store is defined after a series of actions exactly when it was
      defined before or one of them is `INIT`; once defined, it stays so. */
  lemma {:induction false} DefinedAfterInit<S, A>(reducer: (S, A) -> S, state: Option<S>, actions: seq<Lifted<S, A>>)
    ensures Dispatch(reducer, state, actions).Some? <==>
      state.Some? || exists i :: 0 <= i < |actions| && actions[i].Init?
    decreases |actions|
  {
    if actions != [] {
      DefinedAfterInit(reducer, UndefinedReducer(reducer, state, actions[0]), actions[1..]);
      if exists i :: 0 <= i < |actions[1..]| && actions[1..][i].Init? {
        var i :| 0 <= i < |actions[1..]| && actions[1..][i].Init?;
        assert actions[i + 1].Init?;
      }
      if exists i :: 0 <= i < |actions| && actions[i].Init? {
        var i :| 0 <= i < |actions| && actions[i].Init?;
        if i > 0 {
          assert actions[1..][i - 1].Init?;
        }
      }
    }
  }

  /** The settings store: the settings reducer behind the wrapper. */
  function SettingsStore(state: Option<UiSettings>, action: Lifted<UiSettings, SettingsAction>): Option<UiSettings>
  {
    UndefinedReducer(Reduce, state, action)
  }

  /** Before `INIT` the store ignores every settings action; after it, the
      store holds the loaded settings changed by the actions that follow. */
  lemma SettingsStoreInit(loaded: UiSettings, state: Option<UiSettings>, a: SettingsAction)
    ensures SettingsStore(None, Inner(a)) == None
    ensures SettingsStore(state, Init(loaded)) == Some(loaded)
    ensures SettingsStore(SettingsStore(state, Init(loaded)), Inner(a)) == Some(Reduce(loaded, a))
  {
  }
}
