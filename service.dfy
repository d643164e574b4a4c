/** The MIDI service of the library (wooting-analog-midi/src/lib.rs): the
    table of keys, the port options and the connection, with
    `generate_note_mapping`, `update_mapping`, `init`, `select_port` and
    `poll`. The SDK and the MIDI back end are inputs: the analog buffer read,
    the port list and the outcome of opening a port. */
module Service {
  import opened Wrappers
  import opened Hid
  import opened MidiMessages
  import opened NoteEngine

  /** Magnitude from which the modifier key counts as pressed. */
  const ACTUATION_POINT: real := 0.2
  /** The modifier key. */
  const MODIFIER_KEY := LEFT_SHIFT
  /** `generate_note_mapping` tries every code below this bound. */
  const CODE_BOUND := 255

  /** `PortOption(index, name, active)`. */
  datatype PortOption = PortOption(index: nat, name: string, active: bool)

  datatype Error =
    | PortsNotInitialised  // `select_port` before `init`
    | PortOutOfRange       // `select_port` past the option list
    | MidiUnavailable      // `MidiOutput::new` failed
    | PortVanished         // `ports[option]` past the fresh port list: a panic
    | ConnectFailed        // `connect` failed
    | SdkFailed            // `sdk::initialise` failed
    | DevicesUnreadable    // `get_connected_devices_info` failed: its `unwrap` panics
    | DeviceCountMismatch  // the two device counts differ: the `assert_eq!` panics
    | NoConnection         // `poll` without a connection
    | ReadFailed           // `read_full_buffer` failed
    | SendFailed           // a MIDI send failed

  datatype Outcome = Ok | Err(error: Error)

  // ---------------------------------------------------------------------------
  // Port options.

  /** The option list `init` and `select_port` build from the port names:
      option `i` is port `i`, flagged active when it is `selected`. */
  function Options(names: seq<string>, selected: nat): (os: seq<PortOption>)
    ensures |os| == |names|
  {
    seq(|names|, i requires 0 <= i < |names| => PortOption(i, names[i], i == selected))
  }

  /** Every option carries its own index and port name, and exactly the
      selected one is active (none when the selection is past the list). */
  lemma OptionsFlagSelected(names: seq<string>, selected: nat)
    ensures var os := Options(names, selected);
      && (forall i :: 0 <= i < |os| ==> os[i].index == i && os[i].name == names[i])
      && (set i | 0 <= i < |os| && os[i].active) == (if selected < |names| then {selected} else {})
  {
    var os := Options(names, selected);
    if selected < |names| {
      assert os[selected].active;
    }
  }

  // ---------------------------------------------------------------------------
  // Rebinding the table, on values.

  /** The bindings `update_mapping` gives a key: its entry in the mapping, or
      none. */
  function MappingFor(mapping: map<int, seq<Binding>>, code: int): (ms: seq<Binding>)
    ensures code !in mapping ==> ms == []
  {
    if code in mapping then mapping[code] else []
  }

  /** What is left of a sink after `n` more messages. */
  function Spent(sink: Option<nat>, n: nat): (s: Option<nat>)
    requires sink.Some? ==> n <= sink.value
    ensures s.None? == sink.None? && (s.Some? ==> s.value + n == sink.value)
  {
    match sink
    case None => None
    case Some(room) => Some(room - n)
  }

  /** The state of `update_mapping` after some keys: the table, the messages
      sent, whether every send succeeded, and the room left on the sink. */
  datatype Remapped = Remapped(keys: map<int, KeyState>, events: seq<Event>, ok: bool, left: Option<nat>)

  /** One turn of the loop of `update_mapping` on values: after the keys
      before it succeeded, the key `c` drops its notes through the sink and
      takes one fresh note per binding of its entry. A code outside the table
      is passed over; it cannot occur, as the loop runs over the table. */
  function RemapKey(r: Remapped, c: int, mapping: map<int, seq<Binding>>): (r': Remapped)
    ensures r'.keys.Keys == r.keys.Keys
    ensures r.ok && r.left.None? ==> r'.ok
    ensures r.left.None? ==> r'.events == r.events && r'.left.None?
    ensures r.left.Some? ==> r'.left.Some? && r'.left.value + |r'.events| == r.left.value + |r.events|
    ensures !r.ok ==> r' == r
  {
    if !r.ok || c !in r.keys then r
    else
      var b := Rebound(r.keys[c], MappingFor(mapping, c), r.left);
      Remapped(r.keys[c := b.key], r.events + b.events, b.ok, Spent(r.left, |b.events|))
  }

  /** `MidiService::update_mapping` on values, over the first `i` keys of the
      table in iteration order `order`: each key is rebound to its bindings,
      and the first failed note-off ends the loop. `sink` is the room on the
      connection, or `None` without one. */
  function RemapUpTo(ks: map<int, KeyState>, mapping: map<int, seq<Binding>>, order: seq<int>, i: nat, sink: Option<nat>): (r: Remapped)
    requires i <= |order|
    ensures r.keys.Keys == ks.Keys
    ensures sink.None? ==> r.ok && r.events == [] && r.left.None?
    ensures sink.Some? ==> r.left.Some? && r.left.value + |r.events| == sink.value
    decreases i
  {
    if i == 0 then Remapped(ks, [], true, sink)
    else RemapKey(RemapUpTo(ks, mapping, order, i - 1, sink), order[i - 1], mapping)
  }

  /** Once a note-off has failed, later keys are left alone. */
  lemma {:induction false} RemapStopped(ks: map<int, KeyState>, mapping: map<int, seq<Binding>>, order: seq<int>, i: nat, k: nat, sink: Option<nat>)
    requires i <= k <= |order|
    requires !RemapUpTo(ks, mapping, order, i, sink).ok
    ensures RemapUpTo(ks, mapping, order, k, sink) == RemapUpTo(ks, mapping, order, i, sink)
    decreases k
  {
    if k > i {
      RemapStopped(ks, mapping, order, i, k - 1, sink);
    }
  }

  /** Every key of `ks` is in `keys`: the keys of `seen` hold exactly a fresh
      note per binding of their entry of `mapping` and keep their magnitude,
      and every other key is as in `ks`. */
  ghost predicate Rebinds(ks: map<int, KeyState>, mapping: map<int, seq<Binding>>, seen: seq<int>, keys: map<int, KeyState>)
  {
    forall c :: c in ks ==>
      c in keys && keys[c] == if c in seen then KeyState(NewNotes(MappingFor(mapping, c)), ks[c].value) else ks[c]
  }

  /** After the first `i` keys of `order`, on success, exactly those keys
      are rebound. */
  ghost predicate PrefixRebound(ks: map<int, KeyState>, mapping: map<int, seq<Binding>>, order: seq<int>, i: nat, sink: Option<nat>)
    requires i <= |order|
  {
    var r := RemapUpTo(ks, mapping, order, i, sink);
    r.ok ==> Rebinds(ks, mapping, order[..i], r.keys)
  }

  /** After the first `i` keys, on success, every key visited so far holds
      exactly a fresh note per binding of its entry and keeps its magnitude,
      and every other key is as it was. */
  lemma {:induction false} RemapPrefix(ks: map<int, KeyState>, mapping: map<int, seq<Binding>>, order: seq<int>, i: nat, sink: Option<nat>)
    requires i <= |order| && IsEnumeration(order, ks.Keys)
    ensures PrefixRebound(ks, mapping, order, i, sink)
    decreases i
  {
    if i == 0 {
      assert order[..0] == [];
    } else {
      RemapPrefix(ks, mapping, order, i - 1, sink);
      RemapPrefixStep(ks, mapping, order, i, sink);
    }
  }

  /** The induction step of `RemapPrefix`. */
  lemma RemapPrefixStep(ks: map<int, KeyState>, mapping: map<int, seq<Binding>>, order: seq<int>, i: nat, sink: Option<nat>)
    requires 0 < i <= |order| && IsEnumeration(order, ks.Keys)
    requires PrefixRebound(ks, mapping, order, i - 1, sink)
    ensures PrefixRebound(ks, mapping, order, i, sink)
  {
    var r := RemapUpTo(ks, mapping, order, i - 1, sink);
    var r' := RemapUpTo(ks, mapping, order, i, sink);
    if r'.ok {
      var c := order[i - 1];
      var b := Rebound(r.keys[c], MappingFor(mapping, c), r.left);
      NotYetVisited(order, i - 1);
      assert r' == RemapKey(r, c, mapping);
      PrefixGrows(ks, mapping, order[..i - 1], c, r.keys, b.key, r'.keys);
    }
  }

  /** Rebinding a key not yet seen adds it to the rebound ones. */
  lemma PrefixGrows(ks: map<int, KeyState>, mapping: map<int, seq<Binding>>, seen: seq<int>, c: int,
                    keys: map<int, KeyState>, k: KeyState, keys': map<int, KeyState>)
    requires c in ks && c !in seen && Rebinds(ks, mapping, seen, keys)
    requires k == KeyState(NewNotes(MappingFor(mapping, c)), keys[c].value)
    requires keys' == keys[c := k]
    ensures Rebinds(ks, mapping, seen + [c], keys')
  {
  }

  /** In an enumeration, the element at `i` is not among those before it. */
  lemma NotYetVisited(order: seq<int>, i: nat)
    requires i < |order| && forall j, k :: 0 <= j < k < |order| ==> order[j] != order[k]
    ensures order[i] !in order[..i] && order[..i + 1] == order[..i] + [order[i]]
  {
    assert order[..i + 1] == order[..i] + [order[i]];
  }

  /** `update_mapping` applies the mapping to every key of the table: on
      success each key holds exactly `Note::new(ch, id)` for each binding of
      its entry, in order, or no note when the mapping has no entry for it,
      with its magnitude kept; without a connection it cannot fail and sends
      nothing. */
  lemma RemapResult(ks: map<int, KeyState>, mapping: map<int, seq<Binding>>, order: seq<int>, sink: Option<nat>)
    requires IsEnumeration(order, ks.Keys)
    ensures var r := RemapUpTo(ks, mapping, order, |order|, sink);
      && (sink.None? ==> r.ok && |r.events| == 0)
      && (r.ok ==> forall c :: c in ks ==>
            && r.keys[c].notes == NewNotes(MappingFor(mapping, c))
            && r.keys[c].value == ks[c].value)
  {
    RemapPrefix(ks, mapping, order, |order|, sink);
    assert order[..|order|] == order;
    var r := RemapUpTo(ks, mapping, order, |order|, sink);
    if r.ok {
      assert Rebinds(ks, mapping, order, r.keys);
    }
  }

  /** Rebinds one key to `ms`, sending its note-offs through `conn` if there
      is one; `sink` is the room left on `conn`. */
  method SendRebinding(conn: Connection?, sink: Option<nat>, k: KeyState, ms: seq<Binding>) returns (b: Rebinding)
    requires sink == if conn == null then None else Some(conn.room)
    modifies conn
    ensures b == Rebound(k, ms, sink)
    ensures conn != null ==> conn.sent == old(conn.sent) + b.events && conn.room == old(conn.room) - |b.events|
  {
    b := Rebound(k, ms, sink);
    if conn != null {
      conn.SendAll(b.events);
    }
  }

  /** The loop of `update_mapping` with a connection `conn`: it sends, and
      leaves in the table, what `RemapUpTo` says. */
  method RemapThrough(conn: Connection, ks: map<int, KeyState>, mapping: map<int, seq<Binding>>, order: seq<int>)
    returns (m: Remapped)
    requires forall j :: 0 <= j < |order| ==> order[j] in ks
    modifies conn
    ensures m == RemapUpTo(ks, mapping, order, |order|, Some(old(conn.room)))
    ensures conn.sent == old(conn.sent) + m.events && conn.room == old(conn.room) - |m.events|
  {
    var room0 := Some(conn.room);
    ghost var sent0 := conn.sent;
    m := Remapped(ks, [], true, room0);
    var i := 0;
    while i < |order| && m.ok
      invariant i <= |order|
      invariant m == RemapUpTo(ks, mapping, order, i, room0)
      invariant m.left == Some(conn.room) && conn.sent == sent0 + m.events
    {
      m := RemapOne(conn, mapping, order[i], sent0, m);
      i := i + 1;
    }
    if !m.ok {
      RemapStopped(ks, mapping, order, i, |order|, room0);
    }
  }

  /** One turn of the loop of `update_mapping` with a connection: the key
      `c` is rebound and its note-offs are sent. */
  method RemapOne(conn: Connection, mapping: map<int, seq<Binding>>, c: int, ghost sent0: seq<Event>, m: Remapped)
    returns (m': Remapped)
    requires m.ok && c in m.keys
    requires m.left == Some(conn.room) && conn.sent == sent0 + m.events
    modifies conn
    ensures m' == RemapKey(m, c, mapping)
    ensures m'.left == Some(conn.room) && conn.sent == sent0 + m'.events
  {
    var b := SendRebinding(conn, m.left, m.keys[c], MappingFor(mapping, c));
    Assoc(sent0, m.events, b.events);
    m' := Remapped(m.keys[c := b.key], m.events + b.events, b.ok, Spent(m.left, |b.events|));
  }

  /** The loop of `update_mapping` without a connection: every key is
      rebound and nothing is sent, as `RemapUpTo` says. */
  method RemapDetached(ks: map<int, KeyState>, mapping: map<int, seq<Binding>>, order: seq<int>) returns (m: Remapped)
    ensures m == RemapUpTo(ks, mapping, order, |order|, None)
  {
    m := Remapped(ks, [], true, None);
    var i := 0;
    while i < |order|
      invariant i <= |order|
      invariant m == RemapUpTo(ks, mapping, order, i, None)
    {
      m := RemapKey(m, order[i], mapping);
      i := i + 1;
    }
  }

  // ---------------------------------------------------------------------------
  // Polling, on values.

  /** The modifier counts as pressed when its magnitude reaches the actuation
      point; a modifier missing from the buffer counts as released. */
  function ModifierPressed(buffer: map<int, real>): (m: bool)
    ensures m <==> MODIFIER_KEY in buffer && buffer[MODIFIER_KEY] >= ACTUATION_POINT
  {
    (if MODIFIER_KEY in buffer then buffer[MODIFIER_KEY] else 0.0) >= ACTUATION_POINT
  }

  datatype Polled = Polled(keys: map<int, KeyState>, events: seq<Event>, ok: bool, left: nat)

  /** The dispatch loop of `poll` on values, over the first `i` buffer
      entries in iteration order `order`: an entry whose code decodes and
      names a key of the table updates that key with its magnitude; the
      first failed send ends the loop. */
  function PollUpTo(ks: map<int, KeyState>, known: set<int>, buffer: map<int, real>, order: seq<int>, i: nat,
                    modifierPressed: bool, room: nat): (p: Polled)
    requires i <= |order| && forall j :: 0 <= j < |order| ==> order[j] in buffer
    ensures p.keys.Keys == ks.Keys
    ensures p.left + |p.events| == room
    decreases i
  {
    if i == 0 then Polled(ks, [], true, room)
    else
      var p := PollUpTo(ks, known, buffer, order, i - 1, modifierPressed, room);
      var c := order[i - 1];
      if !p.ok || !Decodes(known, c) || c !in p.keys then p
      else
        var k := p.keys[c];
        var f := Fan(k.notes, k.value, buffer[c], modifierPressed, p.left);
        Polled(p.keys[c := KeyState(f.states, if f.ok then buffer[c] else k.value)], p.events + f.events, f.ok, f.left)
  }

  /** Once a send has failed, later entries are ignored. */
  lemma {:induction false} PollStopped(ks: map<int, KeyState>, known: set<int>, buffer: map<int, real>, order: seq<int>,
                                       i: nat, k: nat, modifierPressed: bool, room: nat)
    requires i <= k <= |order| && forall j :: 0 <= j < |order| ==> order[j] in buffer
    requires !PollUpTo(ks, known, buffer, order, i, modifierPressed, room).ok
    ensures PollUpTo(ks, known, buffer, order, k, modifierPressed, room) == PollUpTo(ks, known, buffer, order, i, modifierPressed, room)
    decreases k
  {
    if k > i {
      PollStopped(ks, known, buffer, order, i, k - 1, modifierPressed, room);
    }
  }

  /** After the first `i` entries, a key whose code is not among them, or
      does not decode, is as it was. */
  lemma {:induction false} PollPrefix(ks: map<int, KeyState>, known: set<int>, buffer: map<int, real>, order: seq<int>,
                                      i: nat, modifierPressed: bool, room: nat)
    requires i <= |order| && forall j :: 0 <= j < |order| ==> order[j] in buffer
    ensures var p := PollUpTo(ks, known, buffer, order, i, modifierPressed, room);
      forall c :: c in ks && (c !in order[..i] || !Decodes(known, c)) ==> p.keys[c] == ks[c]
    decreases i
  {
    if i > 0 {
      PollPrefix(ks, known, buffer, order, i - 1, modifierPressed, room);
      assert order[..i] == order[..i - 1] + [order[i - 1]];
    }
  }

  /** `poll` updates only keys that are both in the buffer (under a code that
      decodes) and in the table. */
  lemma PollTouchesOnlyBufferedKeys(ks: map<int, KeyState>, known: set<int>, buffer: map<int, real>, order: seq<int>,
                                    modifierPressed: bool, room: nat)
    requires IsEnumeration(order, buffer.Keys)
    ensures var p := PollUpTo(ks, known, buffer, order, |order|, modifierPressed, room);
      forall c :: c in ks && (c !in buffer || !Decodes(known, c)) ==> p.keys[c] == ks[c]
  {
    PollPrefix(ks, known, buffer, order, |order|, modifierPressed, room);
    assert order[..|order|] == order;
  }

  /** After the first `i` entries, when every send succeeded: each key whose
      code is among them and decodes stores its magnitude from the buffer and
      keeps its number of notes. */
  lemma {:induction false} PollStoresPrefix(ks: map<int, KeyState>, known: set<int>, buffer: map<int, real>, order: seq<int>,
                                            i: nat, modifierPressed: bool, room: nat)
    requires i <= |order| && forall j :: 0 <= j < |order| ==> order[j] in buffer
    ensures var p := PollUpTo(ks, known, buffer, order, i, modifierPressed, room);
      forall c :: c in ks ==> |p.keys[c].notes| == |ks[c].notes|
    ensures var p := PollUpTo(ks, known, buffer, order, i, modifierPressed, room);
      p.ok ==> forall c :: c in ks && c in order[..i] && Decodes(known, c) ==> p.keys[c].value == buffer[c]
    decreases i
  {
    if i > 0 {
      PollStoresPrefix(ks, known, buffer, order, i - 1, modifierPressed, room);
      var p := PollUpTo(ks, known, buffer, order, i - 1, modifierPressed, room);
      assert order[..i] == order[..i - 1] + [order[i - 1]];
      if !p.ok {
        assert PollUpTo(ks, known, buffer, order, i, modifierPressed, room) == p;
      }
    }
  }

  /** A poll in which every send succeeds stores each buffered magnitude in
      the key of its code, when that code decodes and is in the table; no
      key gains or loses notes. */
  lemma PollStoresMagnitudes(ks: map<int, KeyState>, known: set<int>, buffer: map<int, real>, order: seq<int>,
                             modifierPressed: bool, room: nat)
    requires IsEnumeration(order, buffer.Keys)
    ensures var p := PollUpTo(ks, known, buffer, order, |order|, modifierPressed, room);
      && (forall c :: c in ks ==> |p.keys[c].notes| == |ks[c].notes|)
      && (p.ok ==> forall c :: c in ks && c in buffer && Decodes(known, c) ==> p.keys[c].value == buffer[c])
  {
    PollStoresPrefix(ks, known, buffer, order, |order|, modifierPressed, room);
    assert order[..|order|] == order;
  }

  // ---------------------------------------------------------------------------
  // The key table, port selection and start-up, on values.

  /** `generate_note_mapping` over the codes below `n`: a fresh key (no notes,
      magnitude 0) for every code that decodes. */
  function NoteMapping(known: set<int>, n: nat): map<int, KeyState>
    decreases n
  {
    if n == 0 then map[]
    else
      var m := NoteMapping(known, n - 1);
      if Decodes(known, n - 1) then m[n - 1 := KeyState([], 0.0)] else m
  }

  /** The table holds exactly the codes below `n` that decode, each with a
      key in the state of `Key::new`. */
  lemma {:induction false} NoteMappingKeys(known: set<int>, n: nat)
    ensures NoteMapping(known, n).Keys == set c | 0 <= c < n && Decodes(known, c)
    ensures forall c :: c in NoteMapping(known, n) ==> NoteMapping(known, n)[c] == KeyState([], 0.0)
    decreases n
  {
    if n > 0 {
      NoteMappingKeys(known, n - 1);
      var m := NoteMapping(known, n - 1);
      var before := set c | 0 <= c < n - 1 && Decodes(known, c);
      var after := set c | 0 <= c < n && Decodes(known, c);
      if Decodes(known, n - 1) {
        assert after == before + {n - 1};
      } else {
        assert after == before;
      }
    }
  }

  datatype Selection = Selection(outcome: Outcome, options: Option<seq<PortOption>>, reconnect: Option<nat>)

  /** `select_port` on values: the outcome, the new port options and, when a
      new connection is opened, the room of that connection. `midiOut` is the
      port list of a fresh `MidiOutput` (None when it cannot be created) and
      `connect` the room of the opened port (None when opening fails). */
  function Select(options: Option<seq<PortOption>>, option: nat, midiOut: Option<seq<string>>, connect: Option<nat>): (s: Selection)
  {
    if options.None? then Selection(Err(PortsNotInitialised), options, None)
    else if option >= |options.value| then Selection(Err(PortOutOfRange), options, None)
    else if options.value[option].active then Selection(Ok, options, None)
    else if midiOut.None? then Selection(Err(MidiUnavailable), options, None)
    else
      var rebuilt := Some(Options(midiOut.value, option));
      if option >= |midiOut.value| then Selection(Err(PortVanished), rebuilt, None)
      else if connect.None? then Selection(Err(ConnectFailed), rebuilt, None)
      else Selection(Ok, rebuilt, connect)
  }

  /** The error cases of `select_port`: it fails without touching anything
      before `init` and for an option past the list; it changes nothing when
      the option is already active; whenever the options are rebuilt they flag
      exactly the chosen option, and a new connection is opened only then. */
  lemma SelectCases(options: Option<seq<PortOption>>, option: nat, midiOut: Option<seq<string>>, connect: Option<nat>)
    ensures var s := Select(options, option, midiOut, connect);
      && (s.outcome == Err(PortsNotInitialised) <==> options.None?)
      && (s.outcome == Err(PortOutOfRange) <==> options.Some? && option >= |options.value|)
      && (options.Some? && option < |options.value| && options.value[option].active ==> s == Selection(Ok, options, None))
      && (s.options != options ==>
            && midiOut.Some? && s.options == Some(Options(midiOut.value, option))
            && (option < |midiOut.value| ==>
                  (set i | 0 <= i < |s.options.value| && s.options.value[i].active) == {option}))
      && (s.reconnect.Some? ==> s.outcome == Ok && s.options != options && s.reconnect == connect)
  {
    var s := Select(options, option, midiOut, connect);
    if midiOut.Some? {
      OptionsFlagSelected(midiOut.value, option);
    }
    if s.reconnect.Some? {
      assert s.options.value[option].active;
    }
  }

  /** Selecting a port again after it was selected successfully is a no-op,
      whatever the state of the MIDI back end. */
  lemma SelectTwice(options: Option<seq<PortOption>>, option: nat, midiOut: Option<seq<string>>, connect: Option<nat>,
                    midiOut': Option<seq<string>>, connect': Option<nat>)
    requires Select(options, option, midiOut, connect).outcome == Ok
    ensures var s := Select(options, option, midiOut, connect);
      Select(s.options, option, midiOut', connect') == Selection(Ok, s.options, None)
  {
    var s := Select(options, option, midiOut, connect);
    if s.options != options {
      assert s.options.value[option].active;
    }
  }

  /** `init`: the SDK must start (`sdk` is the device count it reports) and
      the device list must be read (`devices` is its length) and agree with
      that count, else `init` panics; then the options list every port with
      the first one active, and the first port is opened if there is one. */
  function Start(sdk: Option<nat>, devices: Option<nat>, midiOut: Option<seq<string>>, connect: Option<nat>,
                 options: Option<seq<PortOption>>): (s: Selection)
  {
    if sdk.None? then Selection(Err(SdkFailed), options, None)
    else if devices.None? then Selection(Err(DevicesUnreadable), options, None)
    else if devices.value != sdk.value then Selection(Err(DeviceCountMismatch), options, None)
    else if midiOut.None? then Selection(Err(MidiUnavailable), options, None)
    else
      var rebuilt := Some(Options(midiOut.value, 0));
      if |midiOut.value| == 0 then Selection(Ok, rebuilt, None)
      else if connect.None? then Selection(Err(ConnectFailed), rebuilt, None)
      else Selection(Ok, rebuilt, connect)
  }

  /** `init` panics when the device list cannot be read or disagrees with
      the SDK's count, leaving the options as they were; otherwise it flags
      option 0, and only it, as active; it connects exactly when there is a
      port to connect to and opening it succeeds. */
  lemma StartFlagsFirst(sdk: Option<nat>, devices: Option<nat>, midiOut: Option<seq<string>>, connect: Option<nat>,
                        options: Option<seq<PortOption>>)
    ensures var s := Start(sdk, devices, midiOut, connect, options);
      var sdkUp := sdk.Some? && devices == sdk;
      && (s.outcome == Err(DevicesUnreadable) <==> sdk.Some? && devices.None?)
      && (s.outcome == Err(DeviceCountMismatch) <==> sdk.Some? && devices.Some? && devices.value != sdk.value)
      && (!sdkUp ==> s.options == options && s.reconnect.None?)
      && (sdkUp && midiOut.Some? ==>
            && s.options == Some(Options(midiOut.value, 0))
            && (set i | 0 <= i < |s.options.value| && s.options.value[i].active) == (if |midiOut.value| > 0 then {0} else {}))
      && (s.reconnect.Some? <==> sdkUp && midiOut.Some? && |midiOut.value| > 0 && connect.Some?)
      && (s.outcome == Ok <==> sdkUp && midiOut.Some? && (|midiOut.value| == 0 || connect.Some?))
  {
    if midiOut.Some? {
      OptionsFlagSelected(midiOut.value, 0);
    }
  }

  // ---------------------------------------------------------------------------
  // The service.

  /** `MidiService`. Its key table is held as values: the in-place `Key` of
      the note engine is tied to the same functions (`Rebound`, `Fan`) by the
      contracts of `Key.UpdateMappings` and `Key.UpdateValue`. */
  class MidiService {
    var portOptions: Option<seq<PortOption>>
    var connection: Connection?
    var keys: map<int, KeyState>
    /** The codes the SDK's `HIDCodes` decodes. */
    const known: set<int>

    /** How many further messages the connection accepts, if there is one. */
    function Room(): Option<nat>
      reads this`connection, connection
    {
      if connection == null then None else Some(connection.room)
    }

    /** `MidiService::new`: no ports, no connection, and the table of
        `generate_note_mapping`. */
    constructor (known: set<int>)
      ensures this.known == known && portOptions == None && connection == null
      ensures keys == NoteMapping(known, CODE_BOUND)
    {
      this.known := known;
      portOptions := None;
      connection := null;
      keys := NoteMapping(known, CODE_BOUND);
    }

    /** `MidiService::update_mapping`: every key of the table, in iteration
        order `order`, is rebound to its entry of `mapping` (or to nothing),
        draining its old notes through the connection; the first failed
        note-off ends the call. */
    method UpdateMapping(mapping: map<int, seq<Binding>>, order: seq<int>) returns (r: Outcome)
      requires IsEnumeration(order, keys.Keys)
      modifies this, connection
      ensures connection == old(connection) && portOptions == old(portOptions)
      ensures var m := RemapUpTo(old(keys), mapping, order, |order|, old(Room()));
        && keys == m.keys && r == (if m.ok then Ok else Err(SendFailed))
        && (connection != null ==>
              connection.sent == old(connection.sent) + m.events && connection.room == old(connection.room) - |m.events|)
    {
      var m;
      if connection == null {
        m := RemapDetached(keys, mapping, order);
      } else {
        m := RemapThrough(connection, keys, mapping, order);
      }
      keys := m.keys;
      r := if m.ok then Ok else Err(SendFailed);
    }

    /** `MidiService::poll`. `read` is the SDK's buffer (code to magnitude),
        None when the read fails, and `order` its iteration order. Without a
        connection or a buffer nothing happens; otherwise the modifier state
        is read from the buffer and every entry whose code decodes and names
        a key of the table updates that key; the first failed send ends the
        call. */
    method Poll(read: Option<map<int, real>>, order: seq<int>) returns (r: Outcome)
      requires read.Some? ==> IsEnumeration(order, read.value.Keys)
      modifies this, connection
      ensures connection == old(connection) && portOptions == old(portOptions)
      ensures connection == null ==> r == Err(NoConnection) && keys == old(keys)
      ensures connection != null && read.None? ==>
        r == Err(ReadFailed) && keys == old(keys) && connection.sent == old(connection.sent) && connection.room == old(connection.room)
      ensures connection != null && read.Some? ==>
        var p := PollUpTo(old(keys), known, read.value, order, |order|, ModifierPressed(read.value), old(connection.room));
        && keys == p.keys && r == (if p.ok then Ok else Err(SendFailed))
        && connection.sent == old(connection.sent) + p.events && connection.room == p.left
    {
      if connection == null {
        return Err(NoConnection);
      }
      if read.None? {
        return Err(ReadFailed);
      }
      var buffer := read.value;
      var modifierPressed := ModifierPressed(buffer);
      ghost var ks0 := keys;
      ghost var room0 := connection.room;
      ghost var sent0 := connection.sent;
      var ok := true;
      var i := 0;
      while i < |order| && ok
        invariant i <= |order| && connection == old(connection) && portOptions == old(portOptions)
        invariant var p := PollUpTo(ks0, known, buffer, order, i, modifierPressed, room0);
          && ok == p.ok && keys == p.keys
          && connection.sent == sent0 + p.events && connection.room == p.left
      {
        ghost var p := PollUpTo(ks0, known, buffer, order, i, modifierPressed, room0);
        var c := order[i];
        if Decodes(known, c) && c in keys {
          var k := keys[c];
          var f := Fan(k.notes, k.value, buffer[c], modifierPressed, connection.room);
          keys := keys[c := KeyState(f.states, if f.ok then buffer[c] else k.value)];
          connection.SendAll(f.events);
          Assoc(sent0, p.events, f.events);
          ok := f.ok;
        }
        i := i + 1;
      }
      if !ok {
        PollStopped(ks0, known, buffer, order, i, |order|, modifierPressed, room0);
      }
      r := if ok then Ok else Err(SendFailed);
    }

    /** `MidiService::select_port`, with the port list of a fresh
        `MidiOutput` and the outcome of opening the chosen port as inputs. */
    method SelectPort(option: nat, midiOut: Option<seq<string>>, connect: Option<nat>) returns (r: Outcome)
      modifies this
      ensures keys == old(keys)
      ensures var s := Select(old(portOptions), option, midiOut, connect);
        && r == s.outcome && portOptions == s.options
        && (s.reconnect.None? ==> connection == old(connection))
        && (s.reconnect.Some? ==> fresh(connection) && connection.sent == [] && connection.room == s.reconnect.value)
    {
      if portOptions.None? {
        return Err(PortsNotInitialised);
      }
      var options := portOptions.value;
      if option >= |options| {
        return Err(PortOutOfRange);
      }
      if options[option].active {
        return Ok;
      }
      if midiOut.None? {
        return Err(MidiUnavailable);
      }
      var ports := midiOut.value;
      portOptions := Some(Options(ports, option));
      if option >= |ports| {
        return Err(PortVanished);
      }
      if connect.None? {
        return Err(ConnectFailed);
      }
      connection := new Connection(connect.value);
      r := Ok;
    }

    /** `MidiService::init`, with the device count the SDK reports on
        start-up, the length of the device list it returns, the port list
        and the outcome of opening the first port as inputs. */
    method Init(sdk: Option<nat>, devices: Option<nat>, midiOut: Option<seq<string>>, connect: Option<nat>) returns (r: Outcome)
      modifies this
      ensures keys == old(keys)
      ensures var s := Start(sdk, devices, midiOut, connect, old(portOptions));
        && r == s.outcome && portOptions == s.options
        && (s.reconnect.None? ==> connection == old(connection))
        && (s.reconnect.Some? ==> fresh(connection) && connection.sent == [] && connection.room == s.reconnect.value)
    {
      if sdk.None? {
        return Err(SdkFailed);
      }
      if devices.None? {
        return Err(DevicesUnreadable);
      }
      if devices.value != sdk.value {
        return Err(DeviceCountMismatch);
      }
      if midiOut.None? {
        return Err(MidiUnavailable);
      }
      var ports := midiOut.value;
      portOptions := Some(Options(ports, 0));
      if |ports| > 0 {
        if connect.None? {
          return Err(ConnectFailed);
        }
        connection := new Connection(connect.value);
      }
      r := Ok;
    }
  }
}
