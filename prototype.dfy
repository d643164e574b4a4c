/** The command-line prototype (src/main.rs): an older, channel-less note
    that compares each new magnitude with the pressure it stored last time, a
    sink that writes the channel-less bytes and ignores whether the port took
    them, the fixed key mapping, and the dispatch of one buffer read. */
module Prototype {
  import opened Wrappers
  import opened Hid
  import opened MidiMessages
  import NoteEngine

  /** Magnitude above which a note sounds. */
  const THRESHOLD: real := 0.1
  /** Aftertouch is sent on every tick a note stays pressed. */
  const AFTERTOUCH: bool := true

  /** `KEYMAPPING`: Q W E R T Y U I O P play the notes 57 to 66. */
  const KEYMAPPING: map<int, byte> := map[Q := 57, W := 58, E := 59, R := 60, T := 61,
                                          Y := 62, U := 63, I := 64, O := 65, P := 66]

  /** The keys of `KEYMAPPING`, in the order they are listed. */
  const MAPPED_KEYS: seq<int> := [Q, W, E, R, T, Y, U, I, O, P]

  /** The keyboard row maps to ten consecutive notes, one key per note:
      the mapped keys are exactly the row, listed without repeats. */
  lemma KeymappingRow()
    ensures forall k :: k in KEYMAPPING <==> k in MAPPED_KEYS
    ensures forall i :: 0 <= i < 10 ==> KEYMAPPING[MAPPED_KEYS[i]] == 57 + i
    ensures forall i, j :: 0 <= i < j < 10 ==> MAPPED_KEYS[i] != MAPPED_KEYS[j]
  {
  }

  /** The prototype's `Note` (its unused `poly_aftertouching` flag left aside). */
  datatype ProtoState = ProtoState(noteId: byte, currentValue: real, pressed: bool, velocity: real, pressure: real)

  /** `Note::new(key, note)`: unpressed, silent, zero pressure. */
  function Fresh(note: byte): ProtoState
  {
    ProtoState(note, 0.0, false, 0.0, 0.0)
  }

  datatype ProtoStep = ProtoStep(state: ProtoState, events: seq<Event>)

  /** `Note::update_current_value` on values. The velocity estimate is the
      library's, taken against the stored pressure; the messages carry
      channel 0, which the channel-less encoder leaves out. */
  function Step(s: ProtoState, newValue: real): (r: ProtoStep)
  {
    var v := NoteEngine.NextVelocity(s.velocity, s.pressure, newValue);
    var s1 := s.(velocity := v, currentValue := newValue, pressure := newValue);
    if newValue > THRESHOLD then
      if !s1.pressed then ProtoStep(s1.(pressed := true), [NoteOn(s.noteId, v, 0)])
      else if AFTERTOUCH then ProtoStep(s1, [Aftertouch(s.noteId, newValue, 0)])
      else ProtoStep(s1, [])
    else if s1.pressed then ProtoStep(s1.(pressed := false), [NoteOff(s.noteId, v, 0)])
    else ProtoStep(s1, [])
  }

  /** After an update the stored pressure and current value are the new
      magnitude, the note is pressed exactly when that magnitude is above the
      threshold, and the velocity estimate, taken against the old pressure,
      lies in [0, 1]; the note id never changes. */
  lemma StepPostState(s: ProtoState, newValue: real)
    ensures var r := Step(s, newValue).state;
      && r.pressure == newValue && r.currentValue == newValue
      && r.pressed == (newValue > THRESHOLD)
      && r.velocity == NoteEngine.NextVelocity(s.velocity, s.pressure, newValue)
      && 0.0 <= r.velocity <= 1.0
      && r.noteId == s.noteId
  {
  }

  /** The four transitions: first crossing above the threshold sends a
      note-on, holding above it an aftertouch with the new magnitude, falling
      to or below it while pressed a note-off, and anything else nothing. */
  lemma StepTransitions(s: ProtoState, newValue: real)
    ensures var v := NoteEngine.NextVelocity(s.velocity, s.pressure, newValue);
      var es := Step(s, newValue).events;
      && (!s.pressed && newValue > THRESHOLD ==> es == [NoteOn(s.noteId, v, 0)])
      && (s.pressed && newValue > THRESHOLD ==> es == [Aftertouch(s.noteId, newValue, 0)])
      && (s.pressed && newValue <= THRESHOLD ==> es == [NoteOff(s.noteId, v, 0)])
      && (!s.pressed && newValue <= THRESHOLD ==> es == [])
  {
  }

  /** What a receiver hears from one prototype note: its note id while
      pressed. */
  function Sounding(s: ProtoState): Option<byte>
  {
    if s.pressed then Some(s.noteId) else None
  }

  /** Each update keeps the note's stream well formed: on only from silence,
      aftertouch and off only on the sounding pitch. */
  lemma StepReplays(s: ProtoState, newValue: real)
    ensures var r := Step(s, newValue);
      NoteEngine.Replay(Sounding(s), r.events) == Some(Sounding(r.state))
  {
    var r := Step(s, newValue);
    if r.events != [] {
      assert r.events[1..] == [];
    }
  }

  /** The prototype note over a series of magnitudes. */
  function Run(s: ProtoState, values: seq<real>): ProtoStep
    decreases |values|
  {
    if values == [] then ProtoStep(s, [])
    else
      var r := Step(s, values[0]);
      var rest := Run(r.state, values[1..]);
      ProtoStep(rest.state, r.events + rest.events)
  }

  lemma {:induction false} RunReplays(s: ProtoState, values: seq<real>)
    ensures NoteEngine.Replay(Sounding(s), Run(s, values).events) == Some(Sounding(Run(s, values).state))
    decreases |values|
  {
    if values != [] {
      var r := Step(s, values[0]);
      StepReplays(s, values[0]);
      RunReplays(r.state, values[1..]);
      NoteEngine.ReplayAppend(Sounding(s), r.events, Run(r.state, values[1..]).events);
    }
  }

  /** From a fresh note the messages follow on, aftertouch*, off, ...: they
      replay from silence, a note-on never follows another without a note-off
      between them, and every message is on channel 0. */
  lemma FreshNoteAlternates(note: byte, values: seq<real>)
    ensures var es := Run(Fresh(note), values).events;
      && NoteEngine.Replay(None, es).Some?
      && (forall i, j :: 0 <= i < j < |es| && es[i].NoteOn? && es[j].NoteOn? ==>
            exists k :: i < k < j && es[k].NoteOff?)
      && (forall i :: 0 <= i < |es| ==> es[i].channel == 0)
  {
    RunReplays(Fresh(note), values);
    NoteEngine.ReplayAlternates(None, Run(Fresh(note), values).events);
    RunChannelZero(Fresh(note), values);
  }

  lemma {:induction false} RunChannelZero(s: ProtoState, values: seq<real>)
    ensures var es := Run(s, values).events;
      forall i :: 0 <= i < |es| ==> es[i].channel == 0 && es[i].note == s.noteId
    decreases |values|
  {
    if values != [] {
      var r := Step(s, values[0]);
      assert r.state.noteId == s.noteId;
      assert forall i :: 0 <= i < |r.events| ==> r.events[i].channel == 0 && r.events[i].note == s.noteId;
      RunChannelZero(r.state, values[1..]);
      var es := Run(s, values).events;
      assert es == r.events + Run(r.state, values[1..]).events;
      forall i | 0 <= i < |es|
        ensures es[i].channel == 0 && es[i].note == s.noteId
      {
        if i >= |r.events| {
          assert es[i] == Run(r.state, values[1..]).events[i - |r.events|];
        }
      }
    }
  }

  /** The prototype's sink: every message is written, channel-less; a failed
      write is ignored. `sent` is the messages in order. */
  class ProtoSink {
    var sent: seq<Event>

    constructor ()
      ensures sent == []
    {
      sent := [];
    }

    /** The bytes written so far. */
    function Wire(): (w: seq<seq<byte>>)
      reads this
      ensures |w| == |sent|
    {
      seq(|sent|, i requires 0 <= i < |sent| reads this => ProtoEncode(sent[i]))
    }

    /** `noteOn`, `noteOff`, `polyphonic_aftertouch`. */
    method Send(e: Event)
      modifies this
      ensures sent == old(sent) + [e]
    {
      sent := sent + [e];
    }

    /** Writes the messages of one update, in order. */
    method SendAll(es: seq<Event>)
      modifies this
      ensures sent == old(sent) + es
    {
      sent := sent + es;
    }
  }

  /** Messages of the prototype are three bytes whose status byte is exactly
      0x90, 0x80 or 0xA0 and whose data byte is at most 127. */
  lemma WireBytes(e: Event)
    requires e.channel == 0
    ensures var m := ProtoEncode(e);
      && |m| == 3 && m[0] in {NOTE_ON_MSG, NOTE_OFF_MSG, POLY_AFTERTOUCH_MSG} && m[1] == e.note && m[2] <= 127
  {
    ProtoEncodeIsChannelZero(e);
  }

  /** The prototype's `Note`. */
  class ProtoNote {
    var noteId: byte
    var currentValue: real
    var pressed: bool
    var velocity: real
    var pressure: real

    function State(): ProtoState
      reads this
    {
      ProtoState(noteId, currentValue, pressed, velocity, pressure)
    }

    /** `Note::new(key, note)`; the key is not stored. */
    constructor (note: byte)
      ensures State() == Fresh(note)
    {
      noteId := note;
      currentValue := 0.0;
      pressed := false;
      velocity := 0.0;
      pressure := 0.0;
    }

    /** `Note::update_current_value`. */
    method UpdateCurrentValue(newValue: real, sink: ProtoSink)
      modifies this, sink
      ensures State() == Step(old(State()), newValue).state
      ensures sink.sent == old(sink.sent) + Step(old(State()), newValue).events
    {
      velocity := NoteEngine.NextVelocity(velocity, pressure, newValue);
      currentValue := newValue;
      pressure := newValue;
      if newValue > THRESHOLD {
        if !pressed {
          sink.Send(NoteOn(noteId, velocity, 0));
          pressed := true;
        } else if AFTERTOUCH {
          sink.Send(Aftertouch(noteId, pressure, 0));
        }
      } else if pressed {
        sink.Send(NoteOff(noteId, velocity, 0));
        pressed := false;
      }
    }
  }

  // ---------------------------------------------------------------------------
  // The note table and the dispatch of one read, on values.

  /** `generateNoteMapping`: a fresh note per mapped key, playing its note. */
  function GenerateNoteMapping(keymapping: map<int, byte>): (notes: map<int, ProtoState>)
    ensures notes.Keys == keymapping.Keys
    ensures forall k :: k in notes ==> notes[k] == Fresh(keymapping[k])
  {
    map k | k in keymapping :: Fresh(keymapping[k])
  }

  datatype Dispatched = Dispatched(notes: map<int, ProtoState>, events: seq<Event>)

  /** The body of the prototype's main loop on values, over the first `i`
      entries of one buffer read in iteration order `order`: an entry whose
      code decodes and has a note updates that note with its magnitude. */
  function DispatchUpTo(notes: map<int, ProtoState>, known: set<int>, buffer: map<int, real>, order: seq<int>, i: nat): (d: Dispatched)
    requires i <= |order| && forall j :: 0 <= j < |order| ==> order[j] in buffer
    ensures d.notes.Keys == notes.Keys
    decreases i
  {
    if i == 0 then Dispatched(notes, [])
    else
      var d := DispatchUpTo(notes, known, buffer, order, i - 1);
      var c := order[i - 1];
      if Decodes(known, c) && c in d.notes then
        var r := Step(d.notes[c], buffer[c]);
        Dispatched(d.notes[c := r.state], d.events + r.events)
      else d
  }

  /** After the first `i` entries, each note whose code is among them and
      decodes has taken its magnitude from the buffer, and every other note
      is as it was. */
  lemma {:induction false} DispatchPrefix(notes: map<int, ProtoState>, known: set<int>, buffer: map<int, real>, order: seq<int>, i: nat)
    requires i <= |order| && forall j :: 0 <= j < |order| ==> order[j] in buffer
    ensures var d := DispatchUpTo(notes, known, buffer, order, i);
      forall c :: c in notes ==>
        if c in order[..i] && Decodes(known, c) then d.notes[c].currentValue == buffer[c] && d.notes[c].noteId == notes[c].noteId
        else d.notes[c] == notes[c]
    decreases i
  {
    if i > 0 {
      DispatchPrefix(notes, known, buffer, order, i - 1);
      assert order[..i] == order[..i - 1] + [order[i - 1]];
      var d := DispatchUpTo(notes, known, buffer, order, i - 1);
      var c := order[i - 1];
      if Decodes(known, c) && c in d.notes {
        StepPostState(d.notes[c], buffer[c]);
      }
    }
  }

  /** One read updates exactly the notes of decodable codes in the buffer:
      each takes its magnitude and keeps its note id; notes of other codes,
      and codes without a note, are left alone. */
  lemma DispatchTouchesOnlyBufferedNotes(notes: map<int, ProtoState>, known: set<int>, buffer: map<int, real>, order: seq<int>)
    requires IsEnumeration(order, buffer.Keys)
    ensures var d := DispatchUpTo(notes, known, buffer, order, |order|);
      && d.notes.Keys == notes.Keys
      && forall c :: c in notes ==>
        if c in buffer && Decodes(known, c) then d.notes[c].currentValue == buffer[c] && d.notes[c].noteId == notes[c].noteId
        else d.notes[c] == notes[c]
  {
    DispatchPrefix(notes, known, buffer, order, |order|);
    assert order[..|order|] == order;
  }

  /** The dispatch loop of one read: the notes of the table are held as
      values and updated through the sink in buffer order. */
  method Dispatch(notes: map<int, ProtoState>, known: set<int>, buffer: map<int, real>, order: seq<int>, sink: ProtoSink)
    returns (notes': map<int, ProtoState>)
    requires IsEnumeration(order, buffer.Keys)
    modifies sink
    ensures var d := DispatchUpTo(notes, known, buffer, order, |order|);
      notes' == d.notes && sink.sent == old(sink.sent) + d.events
  {
    notes' := notes;
    var i := 0;
    while i < |order|
      invariant i <= |order|
      invariant var d := DispatchUpTo(notes, known, buffer, order, i);
        notes' == d.notes && sink.sent == old(sink.sent) + d.events
    {
      var c := order[i];
      if Decodes(known, c) && c in notes' {
        var r := Step(notes'[c], buffer[c]);
        sink.SendAll(r.events);
        notes' := notes'[c := r.state];
      }
      i := i + 1;
    }
  }
}
