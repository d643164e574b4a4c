/** The per-note MIDI state machine of the library
    (wooting-analog-midi/src/lib.rs): a `Note` turns the previous and new
    magnitude of its key into note-on, aftertouch and note-off messages, and a
    `Key` fans one magnitude out to all its notes. */
module NoteEngine {
  import opened Wrappers
  import opened MidiMessages

  /** Magnitude above which a note sounds. */
  const THRESHOLD: real := 0.1
  /** Pitch offset while the modifier key is held. */
  const MODIFIER_NOTE_SHIFT: byte := 1
  /** Aftertouch is sent on every tick a note stays pressed. */
  const AFTERTOUCH: bool := true

  /** A binding of a key: (channel, note id). */
  type Binding = (byte, byte)

  /** A MIDI output connection used as a note sink. `sent` is the messages
      the port has accepted, in order; the bytes on the wire are
      `EncodeAll(sent)`. A send can fail; `room` is how many further messages
      the port accepts. Every failure aborts the rest of the operation that
      sent it, so this budget covers every point at which a send can fail. */
  class Connection {
    var sent: seq<Event>
    var room: nat

    constructor (room: nat)
      ensures sent == [] && this.room == room
    {
      sent := [];
      this.room := room;
    }

    /** The bytes written to the port so far. */
    function Wire(): (w: seq<seq<byte>>)
      reads this
      ensures |w| == |sent|
    {
      EncodeAll(sent)
    }

    /** `note_on`, `note_off`, `polyphonic_aftertouch`: encode and send. */
    method Send(e: Event) returns (ok: bool)
      modifies this
      ensures ok == (old(room) > 0)
      ensures sent == if ok then old(sent) + [e] else old(sent)
      ensures Wire() == if ok then old(Wire()) + [Encode(e)] else old(Wire())
      ensures room == if ok then old(room) - 1 else old(room)
    {
      ok := room > 0;
      if ok {
        EncodeAllAppend(sent, [e]);
        sent := sent + [e];
        room := room - 1;
      }
    }

    /** Sends, one at a time, messages the port has room for. */
    method SendAll(es: seq<Event>)
      requires |es| <= room
      modifies this
      ensures sent == old(sent) + es && room == old(room) - |es|
    {
      var j := 0;
      while j < |es|
        invariant j <= |es|
        invariant sent == old(sent) + es[..j] && room == old(room) - j
      {
        var ok := Send(es[j]);
        assert ok;
        assert es[..j + 1] == es[..j] + [es[j]];
        j := j + 1;
      }
      assert es[..j] == es;
    }
  }

  datatype NoteState = NoteState(noteId: byte, pressed: bool, modifierActive: bool, velocity: real, channel: byte)

  /** `get_effective_note`: the base note, one higher while the modifier was
      active at the last update; `u8` addition wraps as in a release build. */
  function EffectiveNote(s: NoteState): byte
  {
    (s.noteId + (if s.modifierActive then MODIFIER_NOTE_SHIFT else 0)) % 256
  }

  lemma ModifierShiftsByOne(s: NoteState)
    requires s.noteId < 255
    ensures EffectiveNote(s.(modifierActive := true)) == EffectiveNote(s.(modifierActive := false)) + 1
    ensures EffectiveNote(s.(modifierActive := false)) == s.noteId
  {
  }

  /** The velocity estimate: the larger of twice the rise and 0.9 of the old
      estimate, capped at 1. */
  function NextVelocity(v: real, previousValue: real, newValue: real): (r: real)
    ensures 0.0 <= r <= 1.0
    ensures r >= (if 2.0 * (newValue - previousValue) < 1.0 then 2.0 * (newValue - previousValue) else 1.0)
    ensures r >= (if 0.9 * v < 1.0 then 0.9 * v else 1.0)
    ensures r == 1.0 || r == 0.9 * v || r == 2.0 * (newValue - previousValue) || r == 0.0
    ensures r == 0.0 || r <= 0.9 * v || r <= 2.0 * (newValue - previousValue)
  {
    var rise := if 0.0 < newValue - previousValue then newValue - previousValue else 0.0;
    var attack := rise * 2.0;
    var decay := v * 0.9;
    var m := if attack < decay then decay else attack;
    if m < 1.0 then m else 1.0
  }

  /** A key that is not rising loses a tenth of its velocity estimate. */
  lemma VelocityDecays(v: real, previousValue: real, newValue: real)
    requires 0.0 <= v <= 1.0 && newValue <= previousValue
    ensures NextVelocity(v, previousValue, newValue) == 0.9 * v
  {
  }

  /** The outcome of one update: new state, messages sent, and whether every
      send succeeded. */
  datatype Step = Step(state: NoteState, events: seq<Event>, ok: bool)

  /** Send `e` and move to `after`, or fail leaving `s` if the port refuses. */
  function Emit(s: NoteState, e: Event, after: NoteState, room: nat): (r: Step)
  {
    if room == 0 then Step(s, [], false) else Step(after, [e], true)
  }

  /** The threshold part of `update_current_value` (lib.rs:133-150). */
  function Trigger(s: NoteState, newValue: real, room: nat): (r: Step)
    ensures |r.events| <= 1 && |r.events| <= room
  {
    if newValue > THRESHOLD then
      if !s.pressed then
        Emit(s, NoteOn(EffectiveNote(s), s.velocity, s.channel), s.(pressed := true), room)
      else if AFTERTOUCH then
        Emit(s, Aftertouch(EffectiveNote(s), newValue, s.channel), s, room)
      else Step(s, [], true)
    else if s.pressed then
      Emit(s, NoteOff(EffectiveNote(s), s.velocity, s.channel), s.(pressed := false), room)
    else Step(s, [], true)
  }

  /** `Note::update_current_value` (lib.rs:110-153). */
  function Update(s: NoteState, previousValue: real, newValue: real, modifierPressed: bool, room: nat): (r: Step)
    ensures |r.events| <= 2 && |r.events| <= room
  {
    var s1 := s.(velocity := NextVelocity(s.velocity, previousValue, newValue));
    if modifierPressed != s1.modifierActive && s1.pressed then
      if room == 0 then Step(s1, [], false)
      else
        var t := Trigger(s1.(pressed := false, modifierActive := modifierPressed), newValue, room - 1);
        Step(t.state, [NoteOff(EffectiveNote(s1), s1.velocity, s1.channel)] + t.events, t.ok)
    else Trigger(s1.(modifierActive := modifierPressed), newValue, room)
  }

  /** The note-off a forced release sends (`Note::drop`, lib.rs:155-164). */
  function ReleaseEvents(s: NoteState): seq<Event>
  {
    if s.pressed then [NoteOff(EffectiveNote(s), s.velocity, s.channel)] else []
  }

  // ---------------------------------------------------------------------------
  // Pitch bookkeeping of one note's message stream.

  /** The pitch a note is sounding, if any. */
  function Sounding(s: NoteState): Option<byte>
  {
    if s.pressed then Some(EffectiveNote(s)) else None
  }

  /** A receiver's view of one note: starting from the pitch it hears (if any),
      a note-on needs silence, a note-off and an aftertouch need the same pitch
      to be sounding. `None` means the stream broke that rule. */
  function Play(sounding: Option<byte>, e: Event): Option<Option<byte>>
  {
    match e
    case NoteOn(p, _, _) => if sounding.None? then Some(Some(p)) else None
    case NoteOff(p, _, _) => if sounding == Some(p) then Some(None) else None
    case Aftertouch(p, _, _) => if sounding == Some(p) then Some(sounding) else None
  }

  function Replay(sounding: Option<byte>, es: seq<Event>): Option<Option<byte>>
    decreases |es|
  {
    if es == [] then Some(sounding)
    else
      match Play(sounding, es[0])
      case None => None
      case Some(next) => Replay(next, es[1..])
  }

  lemma {:induction false} ReplayAppend(x: Option<byte>, a: seq<Event>, b: seq<Event>)
    requires Replay(x, a).Some?
    ensures Replay(x, a + b) == Replay(Replay(x, a).value, b)
    decreases |a|
  {
    if a != [] {
      assert (a + b)[0] == a[0] && (a + b)[1..] == a[1..] + b;
      ReplayAppend(Play(x, a[0]).value, a[1..], b);
    } else {
      assert a + b == b;
    }
  }

  lemma TriggerReplays(s: NoteState, newValue: real, room: nat)
    ensures var t := Trigger(s, newValue, room);
      && Replay(Sounding(s), t.events) == Some(Sounding(t.state))
      && (forall i :: 0 <= i < |t.events| ==> t.events[i].channel == s.channel)
      && t.state.noteId == s.noteId && t.state.channel == s.channel
      && t.state.modifierActive == s.modifierActive && t.state.velocity == s.velocity
  {
    var t := Trigger(s, newValue, room);
    if t.events != [] {
      assert t.events[1..] == [];
    }
  }

  /** Pitch consistency of one update: whatever the inputs and wherever a send
      fails, the messages sent close the pitch that was sounding before they open
      another, and leave the receiver hearing exactly the pitch the new state
      says is sounding. So a note-off always carries the pitch of the note-on
      that began the press, even when the modifier flips mid-press. */
  lemma UpdateReplays(s: NoteState, previousValue: real, newValue: real, modifierPressed: bool, room: nat)
    ensures var r := Update(s, previousValue, newValue, modifierPressed, room);
      && Replay(Sounding(s), r.events) == Some(Sounding(r.state))
      && (forall i :: 0 <= i < |r.events| ==> r.events[i].channel == s.channel)
      && r.state.noteId == s.noteId && r.state.channel == s.channel
  {
    var s1 := s.(velocity := NextVelocity(s.velocity, previousValue, newValue));
    if modifierPressed != s1.modifierActive && s1.pressed {
      if room > 0 {
        var s2 := s1.(pressed := false, modifierActive := modifierPressed);
        var t := Trigger(s2, newValue, room - 1);
        TriggerReplays(s2, newValue, room - 1);
        var off := NoteOff(EffectiveNote(s1), s1.velocity, s1.channel);
        assert Play(Sounding(s), off) == Some(Sounding(s2));
        assert ([off] + t.events)[1..] == t.events;
      }
    } else {
      TriggerReplays(s1.(modifierActive := modifierPressed), newValue, room);
      if modifierPressed != s.modifierActive {
        assert Sounding(s) == Sounding(s1.(modifierActive := modifierPressed)) == None;
      }
    }
  }

  /** After an update in which every send succeeded the note is pressed
      exactly when the magnitude is above the threshold, and it remembers the
      modifier state it was given; the velocity estimate is updated in every
      case and stays within [0, 1]. */
  lemma UpdatePostState(s: NoteState, previousValue: real, newValue: real, modifierPressed: bool, room: nat)
    ensures var r := Update(s, previousValue, newValue, modifierPressed, room);
      && r.state.velocity == NextVelocity(s.velocity, previousValue, newValue)
      && 0.0 <= r.state.velocity <= 1.0
      && (r.ok ==> r.state.pressed == (newValue > THRESHOLD) && r.state.modifierActive == modifierPressed)
  {
  }

  /** A held note that stays above the threshold with the modifier unchanged
      sends exactly one aftertouch, carrying the new magnitude. */
  lemma HeldNoteSendsAftertouch(s: NoteState, previousValue: real, newValue: real, room: nat)
    requires s.pressed && newValue > THRESHOLD && room >= 1
    ensures var r := Update(s, previousValue, newValue, s.modifierActive, room);
      r.ok && r.events == [Aftertouch(EffectiveNote(s), newValue, s.channel)]
  {
  }

  /** A released note at or below the threshold sends nothing. */
  lemma IdleNoteIsSilent(s: NoteState, previousValue: real, newValue: real, modifierPressed: bool, room: nat)
    requires !s.pressed && newValue <= THRESHOLD
    ensures var r := Update(s, previousValue, newValue, modifierPressed, room);
      r.ok && r.events == [] && !r.state.pressed
  {
  }

  /** A modifier flip while held above the threshold re-pitches the note in
      one tick: note-off at the old pitch, then note-on at the new pitch. */
  lemma ModifierFlipRepitches(s: NoteState, previousValue: real, newValue: real, room: nat)
    requires s.pressed && newValue > THRESHOLD && room >= 2
    ensures var m := !s.modifierActive;
      var v := NextVelocity(s.velocity, previousValue, newValue);
      var r := Update(s, previousValue, newValue, m, room);
      && r.ok && r.state.pressed
      && r.events == [NoteOff(EffectiveNote(s), v, s.channel),
                      NoteOn(EffectiveNote(s.(modifierActive := m)), v, s.channel)]
  {
  }

  /** First crossing above the threshold sends a note-on; falling to or below
      it while pressed sends a note-off, at the velocity just computed. */
  lemma CrossingsSendOnAndOff(s: NoteState, previousValue: real, newValue: real, room: nat)
    requires room >= 1
    ensures var v := NextVelocity(s.velocity, previousValue, newValue);
      var r := Update(s, previousValue, newValue, s.modifierActive, room);
      && (!s.pressed && newValue > THRESHOLD ==> r.events == [NoteOn(EffectiveNote(s), v, s.channel)])
      && (s.pressed && newValue <= THRESHOLD ==> r.events == [NoteOff(EffectiveNote(s), v, s.channel)] && !r.state.pressed)
  {
  }

  /** A refusing port only truncates: the messages sent are a prefix of those
      an accepting port would get, and the update succeeds exactly when the
      port has room for all of them. */
  lemma UpdateTruncates(s: NoteState, previousValue: real, newValue: real, modifierPressed: bool, room: nat)
    ensures var full := Update(s, previousValue, newValue, modifierPressed, 2);
      var r := Update(s, previousValue, newValue, modifierPressed, room);
      && full.ok
      && r.ok == (room >= |full.events|)
      && r.events == full.events[..if room < |full.events| then room else |full.events|]
      && (r.ok ==> r == full)
  {
  }

  // ---------------------------------------------------------------------------
  // Many ticks of one note.

  datatype Tick = Tick(previousValue: real, newValue: real, modifierPressed: bool, room: nat)
  datatype Run = Run(state: NoteState, events: seq<Event>)

  function RunTicks(s: NoteState, ticks: seq<Tick>): Run
    decreases |ticks|
  {
    if ticks == [] then Run(s, [])
    else
      var t := ticks[0];
      var r := Update(s, t.previousValue, t.newValue, t.modifierPressed, t.room);
      var rest := RunTicks(r.state, ticks[1..]);
      Run(rest.state, r.events + rest.events)
  }

  /** Over any number of ticks the note's message stream replays cleanly. */
  lemma {:induction false} RunReplays(s: NoteState, ticks: seq<Tick>)
    ensures Replay(Sounding(s), RunTicks(s, ticks).events) == Some(Sounding(RunTicks(s, ticks).state))
    decreases |ticks|
  {
    if ticks != [] {
      var t := ticks[0];
      var r := Update(s, t.previousValue, t.newValue, t.modifierPressed, t.room);
      UpdateReplays(s, t.previousValue, t.newValue, t.modifierPressed, t.room);
      RunReplays(r.state, ticks[1..]);
      ReplayAppend(Sounding(s), r.events, RunTicks(r.state, ticks[1..]).events);
    }
  }

  lemma {:induction false} NoteOnNeedsOffFirst(p: byte, es: seq<Event>, m: nat)
    requires Replay(Some(p), es).Some? && m < |es| && es[m].NoteOn?
    ensures exists k :: 0 <= k < m && es[k].NoteOff?
    decreases m
  {
    match es[0]
    case NoteOn(_, _, _) => assert false;
    case NoteOff(_, _, _) =>
    case Aftertouch(q, _, _) =>
      assert Replay(Some(q), es[1..]).Some?;
      NoteOnNeedsOffFirst(q, es[1..], m - 1);
      var k :| 0 <= k < m - 1 && es[1..][k].NoteOff?;
      assert es[k + 1].NoteOff?;
  }

  /** A stream that replays cleanly never has two note-ons without a note-off
      between them. */
  lemma {:induction false} ReplayAlternates(x: Option<byte>, es: seq<Event>)
    requires Replay(x, es).Some?
    ensures forall i, j :: 0 <= i < j < |es| && es[i].NoteOn? && es[j].NoteOn? ==>
              exists k :: i < k < j && es[k].NoteOff?
    decreases |es|
  {
    if es != [] {
      var y := Play(x, es[0]).value;
      ReplayAlternates(y, es[1..]);
      forall i, j | 0 <= i < j < |es| && es[i].NoteOn? && es[j].NoteOn?
        ensures exists k :: i < k < j && es[k].NoteOff?
      {
        if i == 0 {
          NoteOnNeedsOffFirst(es[0].note, es[1..], j - 1);
          var k :| 0 <= k < j - 1 && es[1..][k].NoteOff?;
          assert es[k + 1].NoteOff?;
        } else {
          assert es[1..][i - 1].NoteOn? && es[1..][j - 1].NoteOn?;
          var k :| i - 1 < k < j - 1 && es[1..][k].NoteOff?;
          assert es[k + 1].NoteOff?;
        }
      }
    }
  }

  /** From a fresh note, the stream is note-on, aftertouch*, note-off, ...:
      it replays from silence and never opens a second note-on before the
      note-off of the first. */
  lemma FreshNoteAlternates(channel: byte, note: byte, ticks: seq<Tick>)
    ensures var es := RunTicks(NoteState(note, false, false, 0.0, channel), ticks).events;
      && Replay(None, es).Some?
      && forall i, j :: 0 <= i < j < |es| && es[i].NoteOn? && es[j].NoteOn? ==>
           exists k :: i < k < j && es[k].NoteOff?
  {
    var s := NoteState(note, false, false, 0.0, channel);
    RunReplays(s, ticks);
    ReplayAlternates(None, RunTicks(s, ticks).events);
  }

  // ---------------------------------------------------------------------------
  // Note objects.

  class Note {
    var noteId: byte
    var pressed: bool
    var modifierActive: bool
    var velocity: real
    var channel: byte

    function State(): NoteState
      reads this
    {
      NoteState(noteId, pressed, modifierActive, velocity, channel)
    }

    /** `Note::new`: unpressed, silent, no modifier. */
    constructor (channel: byte, note: byte)
      ensures State() == NoteState(note, false, false, 0.0, channel)
    {
      noteId := note;
      pressed := false;
      velocity := 0.0;
      modifierActive := false;
      this.channel := channel;
    }

    method UpdateCurrentValue(previousValue: real, newValue: real, sink: Connection, modifierPressed: bool)
      returns (ok: bool)
      modifies this, sink
      ensures var r := Update(old(State()), previousValue, newValue, modifierPressed, old(sink.room));
        && State() == r.state && ok == r.ok
        && sink.sent == old(sink.sent) + r.events
        && sink.room == old(sink.room) - |r.events|
    {
      velocity := NextVelocity(velocity, previousValue, newValue);
      ghost var s1 := State();
      if modifierPressed != modifierActive {
        if pressed {
          var off := NoteOff(EffectiveNote(State()), velocity, channel);
          ok := sink.Send(off);
          if !ok {
            return;
          }
          pressed := false;
          modifierActive := modifierPressed;
          ghost var s2 := State();
          ok := Threshold(newValue, sink);
          ghost var t := Trigger(s2, newValue, old(sink.room) - 1);
          assert old(sink.sent) + [off] + t.events == old(sink.sent) + ([off] + t.events);
          return;
        }
      }
      modifierActive := modifierPressed;
      ok := Threshold(newValue, sink);
    }

    /** The threshold part of `update_current_value` (lib.rs:133-150). */
    method Threshold(newValue: real, sink: Connection) returns (ok: bool)
      modifies this, sink
      ensures var r := Trigger(old(State()), newValue, old(sink.room));
        && State() == r.state && ok == r.ok
        && sink.sent == old(sink.sent) + r.events
        && sink.room == old(sink.room) - |r.events|
    {
      ok := true;
      if newValue > THRESHOLD {
        if !pressed {
          var e := NoteOn(EffectiveNote(State()), velocity, channel);
          ok := sink.Send(e);
          if ok {
            pressed := true;
          }
        } else if AFTERTOUCH {
          var e := Aftertouch(EffectiveNote(State()), newValue, channel);
          ok := sink.Send(e);
        }
      } else if pressed {
        var e := NoteOff(EffectiveNote(State()), velocity, channel);
        ok := sink.Send(e);
        if ok {
          pressed := false;
        }
      }
    }

    /** `Note::drop`: a pressed note sends its note-off, if there is a sink. */
    method Drop(sink: Connection?) returns (ok: bool)
      modifies this, sink
      ensures sink == null ==> ok && State() == old(State())
      ensures sink != null ==>
        var rel := ReleaseEvents(old(State()));
        && ok == (old(sink.room) >= |rel|)
        && State() == (if ok then old(State()).(pressed := false) else old(State()))
        && sink.sent == old(sink.sent) + (if ok then rel else [])
        && sink.room == old(sink.room) - (if ok then |rel| else 0)
    {
      ok := true;
      if sink != null {
        if pressed {
          ok := sink.Send(NoteOff(EffectiveNote(State()), velocity, channel));
          if !ok {
            return;
          }
          pressed := false;
        }
      }
    }
  }

  // ---------------------------------------------------------------------------
  // Keys.

  datatype KeyState = KeyState(notes: seq<NoteState>, value: real)

  datatype Fanned = Fanned(states: seq<NoteState>, events: seq<Event>, ok: bool, left: nat)

  /** `Key::update_value` on values, over the first `i` notes: every note, in
      list order, is updated with the same previous magnitude, new magnitude
      and modifier, and the first failed send stops the loop. `states` holds
      the notes handled so far, the failing one included. */
  function FanUpTo(ss: seq<NoteState>, i: nat, previousValue: real, newValue: real, modifierPressed: bool, room: nat): (f: Fanned)
    requires i <= |ss|
    ensures |f.states| <= i && f.left + |f.events| == room
    ensures f.ok ==> |f.states| == i
    decreases i
  {
    if i == 0 then Fanned([], [], true, room)
    else
      var f := FanUpTo(ss, i - 1, previousValue, newValue, modifierPressed, room);
      if !f.ok then f
      else
        var r := Update(ss[i - 1], previousValue, newValue, modifierPressed, f.left);
        Fanned(f.states + [r.state], f.events + r.events, r.ok, f.left - |r.events|)
  }

  lemma FanUpToStep(ss: seq<NoteState>, i: nat, done: seq<NoteState>, emitted: seq<Event>,
                    previousValue: real, newValue: real, modifierPressed: bool, room0: nat, room: nat)
    requires i < |ss| && FanUpTo(ss, i, previousValue, newValue, modifierPressed, room0) == Fanned(done, emitted, true, room)
    ensures var r := Update(ss[i], previousValue, newValue, modifierPressed, room);
      FanUpTo(ss, i + 1, previousValue, newValue, modifierPressed, room0) == Fanned(done + [r.state], emitted + r.events, r.ok, room - |r.events|)
  {
  }

  lemma FanFinish(ss: seq<NoteState>, f: Fanned, previousValue: real, newValue: real, modifierPressed: bool, room: nat)
    requires FanUpTo(ss, |ss|, previousValue, newValue, modifierPressed, room) == f
    ensures Fan(ss, previousValue, newValue, modifierPressed, room) == Fanned(f.states + ss[|f.states|..], f.events, f.ok, f.left)
  {
  }

  /** Where the loop of `Key::update_value` leaves off, the whole fan-out
      is known. */
  lemma FanDone(ss: seq<NoteState>, i: nat, f: Fanned, previousValue: real, newValue: real, modifierPressed: bool, room: nat)
    requires i <= |ss| && f == FanUpTo(ss, i, previousValue, newValue, modifierPressed, room) && |f.states| == i
    requires i == |ss| || !f.ok
    ensures Fan(ss, previousValue, newValue, modifierPressed, room) == Fanned(f.states + ss[i..], f.events, f.ok, f.left)
  {
    if !f.ok {
      FanStopped(ss, i, |ss|, previousValue, newValue, modifierPressed, room);
    }
    FanFinish(ss, f, previousValue, newValue, modifierPressed, room);
  }

  /** The whole of `Key::update_value`: notes after a failure keep their state. */
  function Fan(ss: seq<NoteState>, previousValue: real, newValue: real, modifierPressed: bool, room: nat): (f: Fanned)
    ensures |f.states| == |ss| && f.left + |f.events| == room
  {
    var g := FanUpTo(ss, |ss|, previousValue, newValue, modifierPressed, room);
    Fanned(g.states + ss[|g.states|..], g.events, g.ok, g.left)
  }

  /** Once a send has failed, later notes add nothing. */
  lemma {:induction false} FanStopped(ss: seq<NoteState>, i: nat, k: nat, previousValue: real, newValue: real, modifierPressed: bool, room: nat)
    requires i <= k <= |ss| && !FanUpTo(ss, i, previousValue, newValue, modifierPressed, room).ok
    ensures FanUpTo(ss, k, previousValue, newValue, modifierPressed, room) == FanUpTo(ss, i, previousValue, newValue, modifierPressed, room)
    decreases k
  {
    if k > i {
      FanStopped(ss, i, k - 1, previousValue, newValue, modifierPressed, room);
    }
  }

  lemma UpdateRoomIrrelevant(s: NoteState, previousValue: real, newValue: real, modifierPressed: bool, room: nat)
    requires room >= 2
    ensures Update(s, previousValue, newValue, modifierPressed, room) == Update(s, previousValue, newValue, modifierPressed, 2)
  {
  }

  lemma {:induction false} FanUpToPointwise(ss: seq<NoteState>, i: nat, previousValue: real, newValue: real, modifierPressed: bool, room: nat)
    requires i <= |ss| && room >= 2 * i
    ensures var f := FanUpTo(ss, i, previousValue, newValue, modifierPressed, room);
      && f.ok && |f.events| <= 2 * i
      && forall j :: 0 <= j < i ==> f.states[j] == Update(ss[j], previousValue, newValue, modifierPressed, 2).state
    decreases i
  {
    if i > 0 {
      FanUpToPointwise(ss, i - 1, previousValue, newValue, modifierPressed, room);
      var f := FanUpTo(ss, i - 1, previousValue, newValue, modifierPressed, room);
      UpdateRoomIrrelevant(ss[i - 1], previousValue, newValue, modifierPressed, f.left);
      UpdateTruncates(ss[i - 1], previousValue, newValue, modifierPressed, f.left);
    }
  }

  /** With a port that accepts everything, each note of a key ends exactly as
      if it had been updated alone with the key's inputs: the fan-out gives
      every note the same previous and new magnitude and modifier. */
  lemma FanIsPointwise(ss: seq<NoteState>, previousValue: real, newValue: real, modifierPressed: bool, room: nat)
    requires room >= 2 * |ss|
    ensures var f := Fan(ss, previousValue, newValue, modifierPressed, room);
      && f.ok
      && forall i :: 0 <= i < |ss| ==> f.states[i] == Update(ss[i], previousValue, newValue, modifierPressed, 2).state
  {
    FanUpToPointwise(ss, |ss|, previousValue, newValue, modifierPressed, room);
  }

  /** The note-offs of a forced release of every note, in list order. */
  function Released(ss: seq<NoteState>): (es: seq<Event>)
    ensures |es| <= |ss|
    decreases |ss|
  {
    if ss == [] then [] else Released(ss[..|ss| - 1]) + ReleaseEvents(ss[|ss| - 1])
  }

  lemma {:induction false} ReleasedPrefix(ss: seq<NoteState>, i: nat)
    requires i <= |ss|
    ensures |Released(ss[..i])| <= |Released(ss)|
    ensures Released(ss)[..|Released(ss[..i])|] == Released(ss[..i])
    decreases |ss|
  {
    if i < |ss| {
      var n := |ss| - 1;
      assert ss[..n][..i] == ss[..i];
      ReleasedPrefix(ss[..n], i);
      var p, q := Released(ss[..n]), Released(ss[..i]);
      assert Released(ss) == p + ReleaseEvents(ss[n]);
      assert (p + ReleaseEvents(ss[n]))[..|q|] == p[..|q|];
    } else {
      assert ss[..i] == ss;
    }
  }

  /** A forced release sends one note-off per pressed note and nothing for
      the others. */
  lemma {:induction false} ReleasedCount(ss: seq<NoteState>)
    ensures |Released(ss)| == |set i | 0 <= i < |ss| && ss[i].pressed|
    decreases |ss|
  {
    if ss != [] {
      var n := |ss| - 1;
      ReleasedCount(ss[..n]);
      var a := set i | 0 <= i < n && ss[..n][i].pressed;
      var b := set i | 0 <= i < |ss| && ss[i].pressed;
      if ss[n].pressed {
        assert b == a + {n};
      } else {
        assert b == a;
      }
    }
  }

  /** The note-off a forced release sends for a note closes exactly the pitch
      that note is sounding. */
  lemma ReleaseSilences(s: NoteState)
    ensures Replay(Sounding(s), ReleaseEvents(s)) == Some(None)
  {
    if s.pressed {
      assert ReleaseEvents(s)[1..] == [];
    }
  }

  /** `Note::new` for each binding, in order. */
  function NewNotes(ms: seq<Binding>): (ss: seq<NoteState>)
  {
    seq(|ms|, i requires 0 <= i < |ms| => NoteState(ms[i].1, false, false, 0.0, ms[i].0))
  }

  datatype Rebinding = Rebinding(key: KeyState, events: seq<Event>, ok: bool)

  /** `Key::update_mappings` on values. `sink` is the room of the connection,
      if there is one. The old notes are drained: each pressed one sends a
      note-off if there is a sink. If a note-off fails, the drain discards the
      remaining notes too and no new note is created; otherwise the key ends
      with a fresh note per binding. The key's magnitude is kept. */
  function Rebound(k: KeyState, ms: seq<Binding>, sink: Option<nat>): (r: Rebinding)
    ensures sink.None? ==> r.ok && r.events == []
    ensures sink.Some? ==> |r.events| <= sink.value
    ensures r.key == KeyState(if r.ok then NewNotes(ms) else [], k.value)
  {
    match sink
    case None => Rebinding(KeyState(NewNotes(ms), k.value), [], true)
    case Some(room) =>
      var rel := Released(k.notes);
      if room >= |rel| then Rebinding(KeyState(NewNotes(ms), k.value), rel, true)
      else Rebinding(KeyState([], k.value), rel[..room], false)
  }

  /** After a successful rebinding the key holds exactly `Note::new(ch, id)`
      for each binding in order, all unpressed with velocity 0, and every
      previously pressed note was sent one note-off at its sounding pitch if
      there was a sink (and none if there was not). */
  lemma RebindingResult(k: KeyState, ms: seq<Binding>, sink: Option<nat>)
    ensures var r := Rebound(k, ms, sink);
      && (r.ok ==>
            && |r.key.notes| == |ms|
            && forall i :: 0 <= i < |ms| ==>
                 var n := r.key.notes[i];
                 n.channel == ms[i].0 && n.noteId == ms[i].1 && !n.pressed && !n.modifierActive && n.velocity == 0.0)
      && (sink.None? ==> r.ok && r.events == [])
      && (sink.Some? && r.ok ==> r.events == Released(k.notes))
      && (!r.ok ==> sink.Some? && r.key.notes == [] && sink.value < |Released(k.notes)|)
      && r.key.value == k.value
  {
  }

  lemma Assoc<T>(p: seq<T>, x: seq<T>, y: seq<T>)
    ensures p + x + y == p + (x + y)
  {
  }

  lemma ReplaceAt<T>(done: seq<T>, s0: seq<T>, i: nat, x: T)
    requires |done| == i < |s0|
    ensures (done + s0[i..])[i := x] == done + [x] + s0[i + 1..]
  {
    assert s0[i..][1..] == s0[i + 1..];
  }

  lemma SuffixStep<T>(a: seq<T>, b: seq<T>, i: nat)
    requires i < |a| && i < |b| && a[i..] == b[i..]
    ensures a[i] == b[i] && a[i + 1..] == b[i + 1..]
  {
    assert a[i] == a[i..][0] && b[i] == b[i..][0];
    assert a[i + 1..] == a[i..][1..] && b[i + 1..] == b[i..][1..];
  }

  /** A note-off refused in the middle of a drain: the port took exactly the
      note-offs before it. */
  lemma DrainFailed(ss: seq<NoteState>, i: nat)
    requires i < |ss| && ss[i].pressed
    ensures |Released(ss[..i])| < |Released(ss)|
    ensures Released(ss)[..|Released(ss[..i])|] == Released(ss[..i])
  {
    ReleasedStep(ss, i);
    ReleasedPrefix(ss, i + 1);
    ReleasedPrefix(ss, i);
  }

  lemma ReleasedStep(ss: seq<NoteState>, i: nat)
    requires i < |ss|
    ensures Released(ss[..i + 1]) == Released(ss[..i]) + ReleaseEvents(ss[i])
  {
    assert ss[..i + 1][..i] == ss[..i];
  }

  class Key {
    var notes: seq<Note>
    var currentValue: real
    ghost var Repr: set<object>

    ghost predicate Valid()
      reads this`notes, this`Repr
    {
      && this in Repr
      && (forall i :: 0 <= i < |notes| ==> notes[i] in Repr)
      && (forall i, j :: 0 <= i < j < |notes| ==> notes[i] != notes[j])
    }

    function States(): (ss: seq<NoteState>)
      reads this`notes, notes
      ensures |ss| == |notes|
    {
      var ns := notes;
      seq(|ns|, i reads ns requires 0 <= i < |ns| => ns[i].State())
    }

    function Abstract(): KeyState
      reads this, notes
    {
      KeyState(States(), currentValue)
    }

    /** `Key::new`: no bindings, magnitude 0. */
    constructor ()
      ensures Valid() && fresh(Repr) && notes == [] && currentValue == 0.0
    {
      notes := [];
      currentValue := 0.0;
      Repr := {this};
    }

    /** `Key::update_value`: feeds the key's new magnitude, the previous one
        and the modifier state to every note; the magnitude is stored only if
        every note's sends succeeded. */
    method UpdateValue(newValue: real, sink: Connection, modifierPressed: bool) returns (ok: bool)
      requires Valid() && sink !in Repr
      modifies Repr, sink
      ensures Valid() && Repr == old(Repr) && notes == old(notes)
      ensures var f := Fan(old(States()), old(currentValue), newValue, modifierPressed, old(sink.room));
        && States() == f.states && ok == f.ok
        && sink.sent == old(sink.sent) + f.events
        && sink.room == f.left
      ensures currentValue == if ok then newValue else old(currentValue)
    {
      ok := FanOut(currentValue, newValue, sink, modifierPressed);
      if ok {
        currentValue := newValue;
      }
    }

    /** The loop of `update_value`. */
    method FanOut(previousValue: real, newValue: real, sink: Connection, modifierPressed: bool) returns (ok: bool)
      requires Valid() && sink !in Repr
      modifies Repr - {this}, sink
      ensures var f := Fan(old(States()), previousValue, newValue, modifierPressed, old(sink.room));
        && States() == f.states && ok == f.ok
        && sink.sent == old(sink.sent) + f.events
        && sink.room == f.left
    {
      ghost var s0 := States();
      ghost var room0 := sink.room;
      ghost var sent0 := sink.sent;
      ok := true;
      var i := 0;
      while i < |notes| && ok
        invariant i <= |notes| == |s0|
        invariant Fanning(i, ok, s0, previousValue, newValue, modifierPressed, sink, room0, sent0)
      {
        ok := FanStep(i, s0, previousValue, newValue, sink, modifierPressed, room0, sent0);
        i := i + 1;
      }
      FanOutDone(i, ok, s0, previousValue, newValue, modifierPressed, sink, room0, sent0);
    }

    /** The state of the loop of `update_value` after `i` notes. */
    ghost predicate Fanning(i: nat, ok: bool, s0: seq<NoteState>, previousValue: real, newValue: real, modifierPressed: bool,
                            sink: Connection, room0: nat, sent0: seq<Event>)
      reads this`notes, notes, sink
    {
      && i <= |s0|
      && var f := FanUpTo(s0, i, previousValue, newValue, modifierPressed, room0);
      && ok == f.ok && |f.states| == i && States() == f.states + s0[i..]
      && sink.sent == sent0 + f.events && sink.room == f.left
    }

    /** Where the loop of `update_value` stops, the key is in the state the
        whole fan-out describes. */
    lemma FanOutDone(i: nat, ok: bool, s0: seq<NoteState>, previousValue: real, newValue: real, modifierPressed: bool,
                     sink: Connection, room0: nat, sent0: seq<Event>)
      requires Fanning(i, ok, s0, previousValue, newValue, modifierPressed, sink, room0, sent0)
      requires i == |s0| || !ok
      ensures var f := Fan(s0, previousValue, newValue, modifierPressed, room0);
        && States() == f.states && ok == f.ok
        && sink.sent == sent0 + f.events && sink.room == f.left
    {
      FanDone(s0, i, FanUpTo(s0, i, previousValue, newValue, modifierPressed, room0), previousValue, newValue, modifierPressed, room0);
    }

    /** One pass of the loop of `update_value`: the `i`-th note is updated and
        the fan-out advances by one note. */
    method FanStep(i: nat, ghost s0: seq<NoteState>, previousValue: real, newValue: real, sink: Connection, modifierPressed: bool,
                   ghost room0: nat, ghost sent0: seq<Event>) returns (ok: bool)
      requires Valid() && sink !in Repr && i < |notes| == |s0|
      requires Fanning(i, true, s0, previousValue, newValue, modifierPressed, sink, room0, sent0)
      modifies notes[i], sink
      ensures Fanning(i + 1, ok, s0, previousValue, newValue, modifierPressed, sink, room0, sent0)
    {
      ghost var f := FanUpTo(s0, i, previousValue, newValue, modifierPressed, room0);
      ghost var r := Update(s0[i], previousValue, newValue, modifierPressed, sink.room);
      FanUpToStep(s0, i, f.states, f.events, previousValue, newValue, modifierPressed, room0, sink.room);
      assert States()[i] == s0[i];
      ok := UpdateNoteAt(i, previousValue, newValue, sink, modifierPressed);
      Assoc(sent0, f.events, r.events);
      ReplaceAt(f.states, s0, i, r.state);
    }

    /** One step of the loop of `update_value`: the `i`-th note's update. */
    method UpdateNoteAt(i: nat, previousValue: real, newValue: real, sink: Connection, modifierPressed: bool) returns (ok: bool)
      requires Valid() && sink !in Repr && i < |notes|
      modifies notes[i], sink
      ensures Valid()
      ensures var r := Update(old(States())[i], previousValue, newValue, modifierPressed, old(sink.room));
        && States() == old(States())[i := r.state] && ok == r.ok
        && sink.sent == old(sink.sent) + r.events
        && sink.room == old(sink.room) - |r.events|
    {
      var note := notes[i];
      
      ok := note.UpdateCurrentValue(previousValue, newValue, sink, modifierPressed);
      
      forall j | 0 <= j < |notes| && j != i ensures notes[j].State() == old(notes[j].State()) {
        assert notes[j] != note;
      }
    }

    method UpdateMappings(mappings: seq<Binding>, sink: Connection?) returns (ok: bool)
      requires Valid() && (sink != null ==> sink !in Repr)
      modifies Repr, sink
      ensures Valid() && fresh(Repr - old(Repr))
      ensures var r := Rebound(old(Abstract()), mappings, if sink == null then None else Some(old(sink.room)));
        && Abstract() == r.key && ok == r.ok
        && (sink != null ==>
              sink.sent == old(sink.sent) + r.events && sink.room == old(sink.room) - |r.events|)
    {
      ok := Drain(sink);
      notes := [];
      Repr := {this};
      if ok {
        Push(mappings);
      }
    }

    /** The second half of `update_mappings`: a fresh note per binding, in
        order, appended to the emptied key. */
    method Push(mappings: seq<Binding>)
      requires notes == [] && Repr == {this}
      modifies this
      ensures Valid() && fresh(Repr - {this}) && currentValue == old(currentValue)
      ensures States() == NewNotes(mappings)
    {
      var j := 0;
      while j < |mappings|
        invariant 0 <= j <= |mappings|
        invariant currentValue == old(currentValue) && this in Repr
        invariant |notes| == j
        invariant forall k :: 0 <= k < j ==> notes[k] in Repr && fresh(notes[k])
        invariant forall k, l :: 0 <= k < l < j ==> notes[k] != notes[l]
        invariant forall k :: 0 <= k < j ==> notes[k].State() == NewNotes(mappings)[k]
        invariant fresh(Repr - {this})
      {
        var n := new Note(mappings[j].0, mappings[j].1);
        notes := notes + [n];
        Repr := Repr + {n};
        j := j + 1;
      }
      assert States() == NewNotes(mappings);
    }

    /** The draining half of `update_mappings`: the old notes are dropped in
        order; a failed note-off ends the drain. */
    method Drain(sink: Connection?) returns (ok: bool)
      requires Valid() && (sink != null ==> sink !in Repr)
      modifies Repr - {this}, sink
      ensures var rel := Released(old(States()));
        && ok == (sink == null || old(sink.room) >= |rel|)
        && (sink != null ==>
              sink.sent == old(sink.sent) + (if ok then rel else rel[..old(sink.room)])
              && sink.room == (if ok then old(sink.room) - |rel| else 0))
    {
      ghost var s0 := States();
      ghost var room0 := if sink == null then 0 else sink.room;
      ghost var sent0 := if sink == null then [] else sink.sent;
      ok := true;
      var i := 0;
      while i < |notes|
        invariant i <= |notes| == |s0|
        invariant Draining(i, s0, sink, room0, sent0)
      {
        ok := DrainStep(i, s0, sink, room0, sent0);
        if !ok {
          return;
        }
        i := i + 1;
      }
      assert s0[..i] == s0;
    }

    /** The state of the drain after `i` notes. */
    ghost predicate Draining(i: nat, s0: seq<NoteState>, sink: Connection?, room0: nat, sent0: seq<Event>)
      reads this`notes, notes, sink
    {
      && i <= |s0| && |notes| == |s0| && States()[i..] == s0[i..]
      && (sink != null ==> sink.sent == sent0 + Released(s0[..i]) && room0 == sink.room + |Released(s0[..i])|)
    }

    /** One pass of the drain: the `i`-th note is dropped. */
    method DrainStep(i: nat, ghost s0: seq<NoteState>, sink: Connection?, ghost room0: nat, ghost sent0: seq<Event>) returns (ok: bool)
      requires Valid() && (sink != null ==> sink !in Repr) && i < |notes| == |s0|
      requires Draining(i, s0, sink, room0, sent0)
      modifies notes[i], sink
      ensures ok ==> Draining(i + 1, s0, sink, room0, sent0)
      ensures !ok ==>
        && sink != null && room0 < |Released(s0)|
        && sink.sent == sent0 + Released(s0)[..room0] && sink.room == 0
    {
      SuffixStep(States(), s0, i);
      ReleasedStep(s0, i);
      ok := DropAt(i, sink);
      SuffixStep(old(States()), s0, i);
      if !ok {
        DrainFailed(s0, i);
      } else if sink != null {
        Assoc(sent0, Released(s0[..i]), ReleaseEvents(s0[i]));
      }
    }

    /** `Note::drop` on the `i`-th note; the other notes are untouched. */
    method DropAt(i: nat, sink: Connection?) returns (ok: bool)
      requires Valid() && (sink != null ==> sink !in Repr) && i < |notes|
      modifies notes[i], sink
      ensures States()[i + 1..] == old(States())[i + 1..]
      ensures sink == null ==> ok
      ensures sink != null ==>
        var rel := ReleaseEvents(old(States())[i]);
        && ok == (old(sink.room) >= |rel|)
        && sink.sent == old(sink.sent) + (if ok then rel else [])
        && sink.room == old(sink.room) - (if ok then |rel| else 0)
    {
      var note := notes[i];
      
      ok := note.Drop(sink);
      
      forall j | i < j < |notes| ensures notes[j].State() == old(notes[j].State()) {
        assert notes[j] != note;
      }
    }
  }
}
