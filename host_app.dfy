/** The native host (src/native/src/app.rs): one step of the poll loop that
    reports device changes and status snapshots to the front end, the
    throttled saving of the settings, and the commands the front end sends.
    The host is written against a newer library than the one modelled in
    `Service` (it sets a shift amount and a note configuration and asks for
    the connected devices), so here the service is abstract state and the
    outcome of each poll is an input. */
module HostApp {
  import opened Wrappers
  import opened MidiMessages
  import opened NoteEngine
  import opened Service
  import Settings
  import opened Wire

  /** Rate of the status snapshots sent to the front end, in Hz. */
  const MIDI_UPDATE_RATE: nat := 30
  /** Rate of the poll loop, in Hz (`REFRESH_RATE as u32`). */
  const REFRESH_RATE: nat := 100
  /** A snapshot is sent on every third iteration (100 / 30 in `u32`). */
  const SNAPSHOT_DIVISOR: nat := REFRESH_RATE / MIDI_UPDATE_RATE
  /** `iter_count` is a `u32`; its increment wraps as in a release build. */
  const U32: nat := 0x1_0000_0000
  /** Minimum time between two saves, in seconds. */
  const SAVE_THROTTLE: real := 5.0

  /** How a poll of the service ended: without error, with the SDK's
      `NoDevices` as root cause, or with any other error. */
  datatype PollOutcome = PollOk | NoDevicesError | OtherError

  /** `AppEvent`, the messages sent to the front end. */
  datatype AppEvent =
    | MidiUpdateEvent(update: MidiUpdate)
    | NoDevices
    | FoundDevices(devices: seq<DeviceInfo>)
    | PortOptionsEvent(options: seq<PortOption>)

  // ---------------------------------------------------------------------------
  // The status snapshot.

  /** A key is reported while it has notes or a positive magnitude. */
  predicate Reported(k: KeyState)
  {
    |k.notes| > 0 || k.value > 0.0
  }

  /** The entry of one key: its magnitude and each note's base note id,
      velocity, channel and pressed flag. */
  function Entry(k: KeyState): (e: MidiUpdateEntry)
    ensures e.value == k.value && |e.notes| == |k.notes|
  {
    MidiUpdateEntry(k.value, seq(|k.notes|, i requires 0 <= i < |k.notes| =>
      MidiEntry(k.notes[i].noteId, k.notes[i].velocity, k.notes[i].channel, k.notes[i].pressed)))
  }

  /** The snapshot of the key table, by HID code. */
  function Snapshot(keys: map<int, KeyState>): MidiUpdate
  {
    MidiUpdate(map c | c in keys && Reported(keys[c]) :: Entry(keys[c]))
  }

  /** The snapshot holds exactly the keys that have notes or a positive
      magnitude, and each entry lists all of that key's notes, in order, by
      their base note id (never the shifted pitch). */
  lemma SnapshotContents(keys: map<int, KeyState>)
    ensures var u := Snapshot(keys);
      && (forall c :: c in u.data <==> c in keys && (|keys[c].notes| > 0 || keys[c].value > 0.0))
      && forall c :: c in u.data ==>
           && u.data[c].value == keys[c].value
           && |u.data[c].notes| == |keys[c].notes|
           && forall i :: 0 <= i < |keys[c].notes| ==>
                u.data[c].notes[i] == MidiEntry(keys[c].notes[i].noteId, keys[c].notes[i].velocity,
                                                keys[c].notes[i].channel, keys[c].notes[i].pressed)
  {
  }

  /** A key with a pressed note is always in the snapshot, and the snapshot
      says so; a key rebound to nothing left at rest disappears from it. */
  lemma SnapshotShowsPressed(keys: map<int, KeyState>, c: int, i: nat)
    requires c in keys && i < |keys[c].notes| && keys[c].notes[i].pressed
    ensures c in Snapshot(keys).data && Snapshot(keys).data[c].notes[i].pressed
  {
  }

  lemma SnapshotDropsIdle(keys: map<int, KeyState>, c: int)
    requires c in keys && keys[c].notes == [] && keys[c].value <= 0.0
    ensures c !in Snapshot(keys).data
  {
  }

  // ---------------------------------------------------------------------------
  // The poll loop, on values.

  /** The loop's own state: whether devices are known to be connected, and
      the iteration counter. */
  datatype LoopState = LoopState(hasDevices: bool, iterCount: nat)

  /** What one iteration reads: the poll outcome, the connected devices (None
      when asking for them fails, which the loop reports as none) and the
      key table after the poll. */
  datatype TickInput = TickInput(result: PollOutcome, devices: Option<seq<DeviceInfo>>, keys: map<int, KeyState>)

  datatype Ticked = Ticked(state: LoopState, events: seq<AppEvent>)

  /** The devices list, or none when it could not be read. */
  function DevicesOrNone(devices: Option<seq<DeviceInfo>>): seq<DeviceInfo>
  {
    if devices.Some? then devices.value else []
  }

  /** The body of the poll loop. `open` says whether the front end still
      receives: a send fails exactly when it does not. The events are those
      delivered. */
  function TickSpec(s: LoopState, t: TickInput, open: bool): (r: Ticked)
  {
    var next := (s.iterCount + 1) % U32;
    match t.result
    case NoDevicesError =>
      if s.hasDevices then Ticked(LoopState(false, next), if open then [NoDevices] else [])
      else Ticked(LoopState(false, next), [])
    case OtherError => Ticked(LoopState(s.hasDevices, next), [])
    case PollOk =>
      var found := if !s.hasDevices && open then [FoundDevices(DevicesOrNone(t.devices))] else [];
      var snapshot := if s.iterCount % SNAPSHOT_DIVISOR == 0 && open then [MidiUpdateEvent(Snapshot(t.keys))] else [];
      Ticked(LoopState(s.hasDevices || open, next), found + snapshot)
  }

  /** A `NoDevices` error while devices were known clears the flag and sends
      exactly one `NoDevices`; while none were known it sends nothing. Any
      other error sends nothing, keeps the flag and skips the snapshot. A good
      poll while none were known sends `FoundDevices` first, and the flag is
      set exactly when that send went through. The counter always advances,
      wrapping at 2^32. */
  lemma TickCases(s: LoopState, t: TickInput, open: bool)
    requires s.iterCount < U32
    ensures var r := TickSpec(s, t, open);
      && r.state.iterCount == (if s.iterCount == U32 - 1 then 0 else s.iterCount + 1)
      && (t.result == NoDevicesError ==>
            && !r.state.hasDevices
            && r.events == (if s.hasDevices && open then [NoDevices] else []))
      && (t.result == OtherError ==> r.state.hasDevices == s.hasDevices && r.events == [])
      && (t.result == PollOk && !s.hasDevices ==>
            && r.state.hasDevices == open
            && (open ==> r.events[0] == FoundDevices(DevicesOrNone(t.devices))))
      && (t.result == PollOk && s.hasDevices ==> r.state.hasDevices)
  {
  }

  /** A snapshot is sent exactly on error-free iterations whose counter is a
      multiple of three (while the front end receives), as the last event of
      the iteration, and it is the snapshot of the table after the poll. */
  lemma TickSnapshot(s: LoopState, t: TickInput, open: bool)
    ensures var r := TickSpec(s, t, open);
      && ((exists i :: 0 <= i < |r.events| && r.events[i].MidiUpdateEvent?) <==>
            open && t.result == PollOk && s.iterCount % 3 == 0)
      && (open && t.result == PollOk && s.iterCount % 3 == 0 ==>
            r.events[|r.events| - 1] == MidiUpdateEvent(Snapshot(t.keys)))
  {
    var r := TickSpec(s, t, open);
    if open && t.result == PollOk && s.iterCount % 3 == 0 {
      assert r.events[|r.events| - 1].MidiUpdateEvent?;
    }
  }

  /** Iterations in order. */
  function Ticks(s: LoopState, ts: seq<TickInput>, open: bool): (r: Ticked)
    decreases |ts|
  {
    if ts == [] then Ticked(s, [])
    else
      var r := Ticks(s, ts[..|ts| - 1], open);
      var last := TickSpec(r.state, ts[|ts| - 1], open);
      Ticked(last.state, r.events + last.events)
  }

  /** After `n` iterations the counter has advanced by `n`, modulo 2^32. */
  lemma {:induction false} TicksCount(s: LoopState, ts: seq<TickInput>, open: bool)
    requires s.iterCount < U32
    ensures Ticks(s, ts, open).state.iterCount == (s.iterCount + |ts|) % U32
    decreases |ts|
  {
    if ts != [] {
      TicksCount(s, ts[..|ts| - 1], open);
      var n := s.iterCount + |ts| - 1;
      assert (n % U32 + 1) % U32 == (n + 1) % U32;
    }
  }

  /** Because 2^32 is not a multiple of three, the wrap-around breaks the
      cadence: the iterations numbered 2^32 - 1 and 0 follow each other and
      both send a snapshot. */
  lemma WrapSendsTwoSnapshots(keys: map<int, KeyState>, keys': map<int, KeyState>)
    ensures var t := TickInput(PollOk, None, keys);
      var t' := TickInput(PollOk, None, keys');
      var r := Ticks(LoopState(true, U32 - 1), [t, t'], true);
      r.events == [MidiUpdateEvent(Snapshot(keys)), MidiUpdateEvent(Snapshot(keys'))]
  {
    var t := TickInput(PollOk, None, keys);
    var t' := TickInput(PollOk, None, keys');
    assert [t, t'][..1] == [t];
    assert [t][..0] == [];
    var s := LoopState(true, U32 - 1);
    assert (U32 - 1) % SNAPSHOT_DIVISOR == 0;
    var r1 := TickSpec(s, t, true);
    assert r1 == Ticked(LoopState(true, 0), [MidiUpdateEvent(Snapshot(keys))]);
    assert Ticks(s, [t], true) == r1;
    var r2 := TickSpec(r1.state, t', true);
    assert r2.events == [MidiUpdateEvent(Snapshot(keys'))];
  }

  // ---------------------------------------------------------------------------
  // The device status the front end sees.

  /** The device status the front end derives from the events it received:
      `NoDevices` clears it, `FoundDevices` sets it. */
  function Status(known: bool, es: seq<AppEvent>): bool
    decreases |es|
  {
    if es == [] then known
    else if es[0].NoDevices? then Status(false, es[1..])
    else if es[0].FoundDevices? then Status(true, es[1..])
    else Status(known, es[1..])
  }

  /** The device events alternate: `NoDevices` arrives only while the status
      is set and `FoundDevices` only while it is clear. */
  predicate Alternating(known: bool, es: seq<AppEvent>)
    decreases |es|
  {
    if es == [] then true
    else if es[0].NoDevices? then known && Alternating(false, es[1..])
    else if es[0].FoundDevices? then !known && Alternating(true, es[1..])
    else Alternating(known, es[1..])
  }

  lemma {:induction false} StatusAppend(known: bool, a: seq<AppEvent>, b: seq<AppEvent>)
    ensures Status(known, a + b) == Status(Status(known, a), b)
    ensures Alternating(known, a + b) == (Alternating(known, a) && Alternating(Status(known, a), b))
    decreases |a|
  {
    if a != [] {
      assert (a + b)[0] == a[0];
      assert (a + b)[1..] == a[1..] + b;
      if a[0].NoDevices? {
        StatusAppend(false, a[1..], b);
      } else if a[0].FoundDevices? {
        StatusAppend(true, a[1..], b);
      } else {
        StatusAppend(known, a[1..], b);
      }
    } else {
      assert a + b == b;
    }
  }

  /** The status and the alternation over a single event. */
  lemma OneEvent(known: bool, e: AppEvent)
    ensures Status(known, [e]) == if e.NoDevices? then false else if e.FoundDevices? then true else known
    ensures Alternating(known, [e]) == if e.NoDevices? then known else if e.FoundDevices? then !known else true
  {
    assert [e][1..] == [];
  }

  /** While the front end receives, one iteration keeps its view in step
      with the loop: if the events so far alternate and leave the status
      equal to `has_devices`, so do they with this iteration's events. */
  lemma TickKeepsStatus(known: bool, prior: seq<AppEvent>, s: LoopState, t: TickInput)
    requires Alternating(known, prior) && Status(known, prior) == s.hasDevices
    ensures var r := TickSpec(s, t, true);
      Alternating(known, prior + r.events) && Status(known, prior + r.events) == r.state.hasDevices
  {
    var r := TickSpec(s, t, true);
    StatusAppend(known, prior, r.events);
    if |r.events| == 2 {
      OneEvent(s.hasDevices, r.events[0]);
      OneEvent(Status(s.hasDevices, [r.events[0]]), r.events[1]);
      StatusAppend(s.hasDevices, [r.events[0]], [r.events[1]]);
      assert r.events == [r.events[0]] + [r.events[1]];
    } else if |r.events| == 1 {
      OneEvent(s.hasDevices, r.events[0]);
      assert r.events == [r.events[0]];
    }
  }

  /** Over any run, the device events the front end receives alternate, one
      `NoDevices` per loss and one `FoundDevices` per recovery, and its view
      ends equal to `has_devices`. */
  lemma {:induction false} TicksKeepStatus(known: bool, prior: seq<AppEvent>, s: LoopState, ts: seq<TickInput>)
    requires Alternating(known, prior) && Status(known, prior) == s.hasDevices
    ensures var r := Ticks(s, ts, true);
      Alternating(known, prior + r.events) && Status(known, prior + r.events) == r.state.hasDevices
    decreases |ts|
  {
    if ts != [] {
      var r := Ticks(s, ts[..|ts| - 1], true);
      TicksKeepStatus(known, prior, s, ts[..|ts| - 1]);
      var last := TickSpec(r.state, ts[|ts| - 1], true);
      TickKeepsStatus(known, prior + r.events, r.state, ts[|ts| - 1]);
      assert prior + r.events + last.events == prior + (r.events + last.events);
    } else {
      assert prior + [] == prior;
    }
  }

  /** The events sent before the loop: the connected devices when there are
      some, then the port options. */
  function BeginEvents(hasDevices: bool, devices: Option<seq<DeviceInfo>>, options: seq<PortOption>, open: bool): seq<AppEvent>
  {
    if !open then []
    else (if hasDevices then [FoundDevices(DevicesOrNone(devices))] else []) + [PortOptionsEvent(options)]
  }

  /** The front end starts with no devices; after the events sent before the
      loop its view already agrees with `has_devices`. */
  lemma BeginSetsStatus(hasDevices: bool, devices: Option<seq<DeviceInfo>>, options: seq<PortOption>)
    ensures var es := BeginEvents(hasDevices, devices, options, true);
      Alternating(false, es) && Status(false, es) == hasDevices
  {
    var es := BeginEvents(hasDevices, devices, options, true);
    OneEvent(hasDevices, PortOptionsEvent(options));
    if hasDevices {
      var found := FoundDevices(DevicesOrNone(devices));
      OneEvent(false, found);
      StatusAppend(false, [found], [PortOptionsEvent(options)]);
      assert es == [found] + [PortOptionsEvent(options)];
    } else {
      OneEvent(false, PortOptionsEvent(options));
    }
  }

  // ---------------------------------------------------------------------------
  // The poll loop, imperative.

  /** The sending half of the channel to the front end. `sent` is what the
      receiver got; once the receiver is gone every send fails. */
  class EventSender {
    var sent: seq<AppEvent>
    var open: bool

    constructor ()
      ensures sent == [] && open
    {
      sent := [];
      open := true;
    }

    /** `tx.send(e)`: fails, delivering nothing, once the receiver is gone. */
    method Send(e: AppEvent) returns (ok: bool)
      modifies this
      ensures ok == open && open == old(open)
      ensures sent == if ok then old(sent) + [e] else old(sent)
    {
      ok := open;
      if ok {
        sent := sent + [e];
      }
    }

    /** The front end drops its receiver. */
    method Close()
      modifies this
      ensures !open && sent == old(sent)
    {
      open := false;
    }
  }

  /** The state the poll thread keeps between iterations. */
  class PollLoop {
    var hasDevices: bool
    var iterCount: nat

    function State(): LoopState
      reads this
    {
      LoopState(hasDevices, iterCount)
    }

    /** Devices are known when the service counted some at start-up; the
        counter starts at zero. */
    constructor (deviceCount: nat)
      ensures State() == LoopState(deviceCount > 0, 0)
    {
      hasDevices := deviceCount > 0;
      iterCount := 0;
    }

    /** What the thread sends before its loop. `options` is the service's
        port options; the thread panics (the result is false, nothing
        further is sent) when there are none. */
    method Begin(devices: Option<seq<DeviceInfo>>, options: Option<seq<PortOption>>, tx: EventSender) returns (alive: bool)
      modifies tx
      ensures alive == options.Some? && tx.open == old(tx.open)
      ensures tx.sent == old(tx.sent) +
        if options.Some? then BeginEvents(hasDevices, devices, options.value, old(tx.open))
        else if hasDevices && old(tx.open) then [FoundDevices(DevicesOrNone(devices))] else []
    {
      if hasDevices {
        var _ := tx.Send(FoundDevices(DevicesOrNone(devices)));
      }
      if options.None? {
        return false;
      }
      var _ := tx.Send(PortOptionsEvent(options.value));
      alive := true;
    }

    /** One iteration of the loop, after the service was polled. */
    method Tick(t: TickInput, tx: EventSender)
      requires iterCount < U32
      modifies this, tx
      ensures iterCount < U32 && tx.open == old(tx.open)
      ensures var r := TickSpec(old(State()), t, old(tx.open));
        State() == r.state && tx.sent == old(tx.sent) + r.events
    {
      var errored := false;
      match t.result {
        case NoDevicesError =>
          errored := true;
          if hasDevices {
            hasDevices := false;
            var _ := tx.Send(NoDevices);
          }
        case OtherError =>
          errored := true;
        case PollOk =>
      }
      if !errored {
        if !hasDevices {
          var ok := tx.Send(FoundDevices(DevicesOrNone(t.devices)));
          if ok {
            hasDevices := true;
          }
        }
        if iterCount % SNAPSHOT_DIVISOR == 0 {
          var _ := tx.Send(MidiUpdateEvent(Snapshot(t.keys)));
        }
      }
      iterCount := if iterCount == U32 - 1 then 0 else iterCount + 1;
    }
  }

  // ---------------------------------------------------------------------------
  // Saving the settings.

  /** `Instant::elapsed`: never negative, even for an earlier clock reading. */
  function Elapsed(since: real, now: real): (d: real)
    ensures d >= 0.0 && (now >= since ==> d == now - since)
  {
    if now >= since then now - since else 0.0
  }

  /** A save is attempted with no earlier save, or once the throttle has
      passed since the last one. */
  predicate SaveDue(lastSave: Option<real>, now: real)
  {
    lastSave.None? || Elapsed(lastSave.value, now) >= SAVE_THROTTLE
  }

  /** The time of the last save after an attempt at `now` whose write
      succeeds when `writeOk`. */
  function SaveStep(lastSave: Option<real>, now: real, writeOk: bool): (l: Option<real>)
  {
    if SaveDue(lastSave, now) && writeOk then Some(now) else lastSave
  }

  datatype Attempt = Attempt(now: real, writeOk: bool)
  datatype Saves = Saves(lastSave: Option<real>, writes: seq<real>)

  /** A series of calls to `save_config`: the last save time and the times
      of the writes that succeeded. */
  function SaveRun(lastSave: Option<real>, attempts: seq<Attempt>): Saves
    decreases |attempts|
  {
    if attempts == [] then Saves(lastSave, [])
    else
      var r := SaveRun(lastSave, attempts[..|attempts| - 1]);
      var a := attempts[|attempts| - 1];
      var l := SaveStep(r.lastSave, a.now, a.writeOk);
      Saves(l, r.writes + if l != r.lastSave then [a.now] else [])
  }

  /** One call: a write is attempted only when due, and the last save time
      moves, to now, exactly when that write succeeds. */
  lemma SaveStepCases(lastSave: Option<real>, now: real, writeOk: bool)
    ensures var l := SaveStep(lastSave, now, writeOk);
      && (l == Some(now) && l != lastSave ==> writeOk && (lastSave.None? || lastSave.value + SAVE_THROTTLE <= now || now < lastSave.value))
      && (!writeOk ==> l == lastSave)
      && (lastSave.Some? && lastSave.value <= now < lastSave.value + SAVE_THROTTLE ==> l == lastSave)
      && (lastSave.None? && writeOk ==> l == Some(now))
  {
  }

  /** The throttle: with a clock that never goes back, successful writes are
      at least five seconds apart (and five seconds after an earlier save),
      and the last save time is the time of the last successful write. */
  lemma {:induction false} SavesAreSpaced(lastSave: Option<real>, attempts: seq<Attempt>)
    requires forall i, j :: 0 <= i < j < |attempts| ==> attempts[i].now <= attempts[j].now
    requires lastSave.Some? ==> forall i :: 0 <= i < |attempts| ==> lastSave.value <= attempts[i].now
    ensures var r := SaveRun(lastSave, attempts);
      && (forall i :: 0 <= i < |r.writes| - 1 ==> r.writes[i] + SAVE_THROTTLE <= r.writes[i + 1])
      && (lastSave.Some? && |r.writes| > 0 ==> lastSave.value + SAVE_THROTTLE <= r.writes[0])
      && (r.writes == [] ==> r.lastSave == lastSave)
      && (r.writes != [] ==> r.lastSave == Some(r.writes[|r.writes| - 1]) && r.writes[|r.writes| - 1] <= attempts[|attempts| - 1].now)
    decreases |attempts|
  {
    if attempts != [] {
      var init := attempts[..|attempts| - 1];
      SavesAreSpaced(lastSave, init);
      var r := SaveRun(lastSave, init);
      var a := attempts[|attempts| - 1];
      if r.writes != [] {
        assert init[|init| - 1].now <= a.now;
      }
    }
  }

  // ---------------------------------------------------------------------------
  // The application.

  /** The host's settings: the key mapping per channel, the shift amount and
      the note configuration. */
  datatype HostSettings = HostSettings(keymapping: map<byte, seq<Settings.KeyNote>>, shiftAmount: byte, noteConfig: NoteConfig)

  /** What the host sets on the service. */
  datatype ServiceView = ServiceView(mapping: map<int, seq<Binding>>, amountToShift: byte, noteConfig: NoteConfig,
                                     portOptions: Option<seq<PortOption>>, connection: Option<nat>)

  /** `AppFunction`, with the configuration already parsed. */
  datatype AppFunction = RequestConfig | UpdateConfig(config: HostSettings) | PortOptions | SelectPort(option: nat)

  /** The JSON value a command returns. */
  datatype Reply = Config(settings: HostSettings) | Null | Options(options: Option<seq<PortOption>>)

  datatype Response = Value(reply: Reply) | Failed(error: Error)

  /** A successful `select_port` always leaves port options behind, so the
      host's `unwrap` of them cannot fail. */
  lemma SelectedHasOptions(options: Option<seq<PortOption>>, option: nat, midiOut: Option<seq<string>>, connect: Option<nat>)
    requires Select(options, option, midiOut, connect).outcome == Ok
    ensures var s := Select(options, option, midiOut, connect);
      s.options.Some? && option < |s.options.value| && s.options.value[option].active
  {
    var s := Select(options, option, midiOut, connect);
    if s.options != options {
      SelectCases(options, option, midiOut, connect);
      assert s.options.value[option].active;
    }
  }

  class App {
    var settings: HostSettings
    var lastSave: Option<real>
    /** The settings written by the successful saves, in order. */
    var stored: seq<HostSettings>
    var service: ServiceView
    /** The codes the SDK's `HIDCodes` decodes. */
    const known: set<int>

    /** `App::new`, with the given initial settings and service state. */
    constructor (settings: HostSettings, service: ServiceView, known: set<int>)
      ensures this.settings == settings && this.service == service && this.known == known
      ensures lastSave == None && stored == []
    {
      this.settings := settings;
      this.service := service;
      this.known := known;
      lastSave := None;
      stored := [];
    }

    /** `save_config` at clock reading `now`; `writeOk` says whether writing
        the file succeeds. */
    method SaveConfig(now: real, writeOk: bool)
      modifies this
      ensures settings == old(settings) && service == old(service)
      ensures lastSave == SaveStep(old(lastSave), now, writeOk)
      ensures stored == old(stored) + if SaveDue(old(lastSave), now) && writeOk then [settings] else []
    {
      if lastSave.None? || Elapsed(lastSave.value, now) >= SAVE_THROTTLE {
        if writeOk {
          stored := stored + [settings];
          lastSave := Some(now);
        }
      }
    }

    /** `update_config`: the settings are replaced, the service gets the
        inverted mapping (channels visited in `chans` order), the shift
        amount and the note configuration, then a throttled save follows. */
    method UpdateConfig(config: HostSettings, chans: seq<byte>, now: real, writeOk: bool)
      requires IsEnumeration(chans, config.keymapping.Keys)
      modifies this
      ensures settings == config
      ensures service == old(service).(mapping := Settings.ProperUpTo(config.keymapping, known, chans, |chans|),
                                       amountToShift := config.shiftAmount, noteConfig := config.noteConfig)
      ensures lastSave == SaveStep(old(lastSave), now, writeOk)
      ensures stored == old(stored) + if SaveDue(old(lastSave), now) && writeOk then [config] else []
    {
      settings := config;
      var m := Settings.GetProperMapping(Settings.AppSettings(config.keymapping, config.shiftAmount), known, chans);
      service := service.(mapping := m, amountToShift := config.shiftAmount, noteConfig := config.noteConfig);
      SaveConfig(now, writeOk);
    }

    /** `select_port`: the service's error is passed on; on success the
        reply is the service's port options. */
    method SelectPort(option: nat, midiOut: Option<seq<string>>, connect: Option<nat>) returns (r: Response)
      modifies this
      ensures settings == old(settings) && lastSave == old(lastSave) && stored == old(stored)
      ensures var s := Select(old(service.portOptions), option, midiOut, connect);
        && service == old(service).(portOptions := s.options, connection := if s.reconnect.Some? then s.reconnect else old(service.connection))
        && r == if s.outcome == Ok then Value(Options(s.options)) else Failed(s.outcome.error)
    {
      var s := Select(service.portOptions, option, midiOut, connect);
      service := service.(portOptions := s.options, connection := if s.reconnect.Some? then s.reconnect else service.connection);
      if s.outcome == Ok {
        SelectedHasOptions(old(service.portOptions), option, midiOut, connect);
        r := Value(Options(service.portOptions));
      } else {
        r := Failed(s.outcome.error);
      }
    }

    /** `process_command`. */
    method ProcessCommand(cmd: AppFunction, chans: seq<byte>, now: real, writeOk: bool,
                          midiOut: Option<seq<string>>, connect: Option<nat>) returns (r: Response)
      requires cmd.UpdateConfig? ==> IsEnumeration(chans, cmd.config.keymapping.Keys)
      modifies this
      ensures !cmd.UpdateConfig? && !cmd.SelectPort? ==>
        settings == old(settings) && service == old(service) && lastSave == old(lastSave) && stored == old(stored)
      ensures cmd.RequestConfig? ==> r == Value(Config(old(settings)))
      ensures cmd.PortOptions? ==> r == Value(Options(old(service.portOptions)))
      ensures cmd.UpdateConfig? ==>
        && r == Value(Null) && settings == cmd.config
        && service == old(service).(mapping := Settings.ProperUpTo(cmd.config.keymapping, known, chans, |chans|),
                                    amountToShift := cmd.config.shiftAmount, noteConfig := cmd.config.noteConfig)
        && lastSave == SaveStep(old(lastSave), now, writeOk)
        && stored == old(stored) + (if SaveDue(old(lastSave), now) && writeOk then [cmd.config] else [])
      ensures cmd.SelectPort? ==>
        && settings == old(settings) && lastSave == old(lastSave) && stored == old(stored)
        && var s := Select(old(service.portOptions), cmd.option, midiOut, connect);
           && service == old(service).(portOptions := s.options,
                                       connection := if s.reconnect.Some? then s.reconnect else old(service.connection))
           && r == if s.outcome == Ok then Value(Options(s.options)) else Failed(s.outcome.error)
    {
      match cmd {
        case RequestConfig =>
          r := Value(Config(settings));
        case UpdateConfig(config) =>
          UpdateConfig(config, chans, now, writeOk);
          r := Value(Null);
        case PortOptions =>
          r := Value(Options(service.portOptions));
        case SelectPort(option) =>
          r := SelectPort(option, midiOut, connect);
      }
    }
  }
}
