/** The three-byte MIDI messages the note sinks send: the `NoteSink`
    implementation for a MIDI output connection in the library
    (wooting-analog-midi/src/lib.rs) and the channel-less one of the prototype
    (src/main.rs). */
module MidiMessages {
  import opened Wrappers

  type byte = x: int | 0 <= x < 256

  const NOTE_ON_MSG: byte := 0x90
  const NOTE_OFF_MSG: byte := 0x80
  const POLY_AFTERTOUCH_MSG: byte := 0xA0

  /** A message a note asks its sink to send; `value` is the velocity of a
      note-on or note-off and the pressure of an aftertouch. */
  datatype Event =
    | NoteOn(note: byte, value: real, channel: byte)
    | NoteOff(note: byte, value: real, channel: byte)
    | Aftertouch(note: byte, value: real, channel: byte)

  function Pow2(k: nat): (p: nat)
    ensures p >= 1
  {
    if k == 0 then 1 else 2 * Pow2(k - 1)
  }

  /** Bitwise or of two naturals, one bit at a time. */
  function BitOr(a: nat, b: nat): nat
    decreases a + b
  {
    if a == 0 then b
    else if b == 0 then a
    else 2 * BitOr(a / 2, b / 2) + (if a % 2 == 1 || b % 2 == 1 then 1 else 0)
  }

  lemma {:induction false} BitOrBound(a: nat, b: nat, k: nat)
    requires a < Pow2(k) && b < Pow2(k)
    ensures BitOr(a, b) < Pow2(k)
    decreases k
  {
    if a != 0 && b != 0 {
      BitOrBound(a / 2, b / 2, k - 1);
    }
  }

  lemma {:induction false} BitOrDisjoint(m: nat, b: nat, k: nat)
    requires b < Pow2(k)
    ensures BitOr(m * Pow2(k), b) == m * Pow2(k) + b
    decreases k
  {
    var a := m * Pow2(k);
    if k > 0 && a != 0 && b != 0 {
      var p := Pow2(k - 1);
      assert a == 2 * (m * p) by { assert Pow2(k) == 2 * p; }
      assert a / 2 == m * p && a % 2 == 0;
      BitOrDisjoint(m, b / 2, k - 1);
    }
  }

  /** Bitwise or of two bytes, as Rust's `|` on `u8`. */
  function Or(a: byte, b: byte): byte
  {
    BitOrBound(a, b, 8);
    BitOr(a, b)
  }

  /** `(f32::min(x, 1.0) * 127.0) as u8`: the cast truncates toward zero and
      saturates, so negative products give 0. */
  function DataByte(x: real): (b: byte)
    ensures b <= 127
    ensures x >= 1.0 ==> b == 127
    ensures x <= 0.0 ==> b == 0
    ensures 0.0 <= x <= 1.0 ==> b as real <= x * 127.0 < b as real + 1.0
  {
    var y := (if x < 1.0 then x else 1.0) * 127.0;
    if y <= 0.0 then 0 else y.Floor
  }

  function KindByte(e: Event): byte
  {
    match e
    case NoteOn(_, _, _) => NOTE_ON_MSG
    case NoteOff(_, _, _) => NOTE_OFF_MSG
    case Aftertouch(_, _, _) => POLY_AFTERTOUCH_MSG
  }

  /** The bytes the library's sink sends for an event:
      `[kind | channel, note, data byte]`. */
  function Encode(e: Event): (m: seq<byte>)
  {
    [Or(KindByte(e), e.channel), e.note, DataByte(e.value)]
  }

  /** The prototype's sink: the same layout without a channel. */
  function ProtoEncode(e: Event): (m: seq<byte>)
  {
    [KindByte(e), e.note, DataByte(e.value)]
  }

  function EncodeAll(es: seq<Event>): (ms: seq<seq<byte>>)
    ensures |ms| == |es|
    ensures forall i :: 0 <= i < |es| ==> ms[i] == Encode(es[i])
  {
    if es == [] then [] else [Encode(es[0])] + EncodeAll(es[1..])
  }

  lemma {:induction false} EncodeAllAppend(a: seq<Event>, b: seq<Event>)
    ensures EncodeAll(a + b) == EncodeAll(a) + EncodeAll(b)
  {
    var l, r := EncodeAll(a + b), EncodeAll(a) + EncodeAll(b);
    assert |l| == |r|;
    forall i | 0 <= i < |l| ensures l[i] == r[i] {
      if i < |a| { assert (a + b)[i] == a[i]; } else { assert (a + b)[i] == b[i - |a|]; }
    }
  }

  /** What a receiver reads back from three bytes. */
  datatype Kind = On | Off | Touch
  datatype Message = Message(kind: Kind, channel: int, note: byte, data: byte)

  function KindOf(e: Event): Kind
  {
    match e
    case NoteOn(_, _, _) => On
    case NoteOff(_, _, _) => Off
    case Aftertouch(_, _, _) => Touch
  }

  /** Standard MIDI decoding of a channel-voice message: the high nibble of the
      status byte is the kind, the low nibble the channel. */
  function Decode(m: seq<byte>): Option<Message>
  {
    if |m| != 3 then None
    else
      var hi, lo := m[0] / 16, m[0] % 16;
      if hi == 8 then Some(Message(Off, lo, m[1], m[2]))
      else if hi == 9 then Some(Message(On, lo, m[1], m[2]))
      else if hi == 10 then Some(Message(Touch, lo, m[1], m[2]))
      else None
  }

  lemma OrLowNibble(k: byte, c: byte)
    requires k % 16 == 0 && c < 16
    ensures Or(k, c) == k + c
  {
    assert Pow2(4) == 16;
    assert k == (k / 16) * 16;
    BitOrDisjoint(k / 16, c, 4);
  }

  /** Round trip of the library's encoder for the sixteen MIDI channels: every
      message is three bytes and decodes to the event's kind, channel and
      note, with the clamped, truncated value as data byte. */
  lemma EncodeDecode(e: Event)
    requires e.channel < 16
    ensures |Encode(e)| == 3
    ensures Decode(Encode(e)) == Some(Message(KindOf(e), e.channel, e.note, DataByte(e.value)))
    ensures Encode(e)[2] <= 127
  {
    OrLowNibble(KindByte(e), e.channel);
  }

  /** A channel of 16 or more is not masked: it spills into the kind nibble, so
      a note-off on channel 16 reads as a note-on on channel 0. */
  lemma ChannelSpillsIntoKind()
    ensures Encode(NoteOff(60, 0.5, 16))[0] == NOTE_ON_MSG
    ensures Decode(Encode(NoteOff(60, 0.5, 16))).value.kind == On
  {
    assert Or(NOTE_OFF_MSG, 16) == NOTE_ON_MSG;
  }

  /** The prototype's bytes are exactly the library's bytes on channel 0, so
      its status byte is exactly 0x90, 0x80 or 0xA0. */
  lemma ProtoEncodeIsChannelZero(e: Event)
    requires e.channel == 0
    ensures ProtoEncode(e) == Encode(e)
    ensures ProtoEncode(e)[0] in {NOTE_ON_MSG, NOTE_OFF_MSG, POLY_AFTERTOUCH_MSG}
    ensures Decode(ProtoEncode(e)) == Some(Message(KindOf(e), 0, e.note, DataByte(e.value)))
  {
    OrLowNibble(KindByte(e), 0);
  }
}
