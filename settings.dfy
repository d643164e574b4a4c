/** The settings of the Tauri host: the key mapping per MIDI channel, its
    inversion into the per-key bindings the MIDI service takes, and the
    default configuration. */
module Settings {
  import opened Wrappers
  import opened Hid
  import opened MidiMessages
  import opened NoteEngine

  /** `default_shift_amount`: the modifier shifts by an octave. */
  const DEFAULT_SHIFT_AMOUNT: byte := 12

  /** A key byte (a HID code) and the note it plays. */
  type KeyNote = (byte, byte)

  /** `AppSettings`: channel to the key/note pairs played on it, and the
      shift amount. */
  datatype AppSettings = AppSettings(keymapping: map<byte, seq<KeyNote>>, shiftAmount: byte)

  /** The bindings of `code` in `m`, none when it has no entry. */
  function BindingsOf(m: map<int, seq<Binding>>, code: int): seq<Binding>
  {
    if code in m then m[code] else []
  }

  // ---------------------------------------------------------------------------
  // `get_proper_mapping` on values, following its two loops.

  /** The inner loop of `get_proper_mapping` over the pairs `pairs` of
      channel `chan`, in order: a pair whose key decodes is pushed onto the
      bindings of that key (its entry created empty first if need be); any
      other pair is skipped. */
  function AddChannel(m: map<int, seq<Binding>>, known: set<int>, chan: byte, pairs: seq<KeyNote>): map<int, seq<Binding>>
    decreases |pairs|
  {
    if pairs == [] then m
    else
      var m' := AddChannel(m, known, chan, pairs[..|pairs| - 1]);
      var (key, note) := pairs[|pairs| - 1];
      if Decodes(known, key) then m'[key := BindingsOf(m', key) + [(chan, note)]] else m'
  }

  /** The outer loop of `get_proper_mapping` over the first `i` channels in
      iteration order `chans`. */
  function ProperUpTo(keymapping: map<byte, seq<KeyNote>>, known: set<int>, chans: seq<byte>, i: nat): map<int, seq<Binding>>
    requires i <= |chans| && forall j :: 0 <= j < |chans| ==> chans[j] in keymapping
    decreases i
  {
    if i == 0 then map[]
    else AddChannel(ProperUpTo(keymapping, known, chans, i - 1), known, chans[i - 1], keymapping[chans[i - 1]])
  }

  /** `AppSettings::get_proper_mapping` (channel to [(key, note)] becomes key
      to [(channel, note)]), with the channels visited in iteration order
      `chans` and `known` the codes `HIDCodes::from_u8` decodes. */
  method GetProperMapping(settings: AppSettings, known: set<int>, chans: seq<byte>) returns (mapping: map<int, seq<Binding>>)
    requires IsEnumeration(chans, settings.keymapping.Keys)
    ensures mapping == ProperUpTo(settings.keymapping, known, chans, |chans|)
  {
    mapping := map[];
    var i := 0;
    while i < |chans|
      invariant i <= |chans|
      invariant mapping == ProperUpTo(settings.keymapping, known, chans, i)
    {
      var chan := chans[i];
      var pairs := settings.keymapping[chan];
      ghost var before := mapping;
      var j := 0;
      while j < |pairs|
        invariant j <= |pairs|
        invariant mapping == AddChannel(before, known, chan, pairs[..j])
      {
        var (key, note) := pairs[j];
        if Decodes(known, key) {
          var current := if key in mapping then mapping[key] else [];
          mapping := mapping[key := current + [(chan, note)]];
        }
        assert pairs[..j + 1][..j] == pairs[..j];
        j := j + 1;
      }
      assert pairs[..|pairs|] == pairs;
      i := i + 1;
    }
  }

  // ---------------------------------------------------------------------------
  // The closed form of the inversion.

  /** The bindings the pairs of channel `chan` give key `code`, in order. */
  function PairsFor(chan: byte, pairs: seq<KeyNote>, code: int): seq<Binding>
    decreases |pairs|
  {
    if pairs == [] then []
    else
      PairsFor(chan, pairs[..|pairs| - 1], code)
      + (if pairs[|pairs| - 1].0 == code then [(chan, pairs[|pairs| - 1].1)] else [])
  }

  /** The bindings the channels `chans` give key `code`: channel after
      channel, each in its own order. */
  function Gathered(keymapping: map<byte, seq<KeyNote>>, chans: seq<byte>, code: int): seq<Binding>
    requires forall j :: 0 <= j < |chans| ==> chans[j] in keymapping
    decreases |chans|
  {
    if chans == [] then []
    else Gathered(keymapping, chans[..|chans| - 1], code) + PairsFor(chans[|chans| - 1], keymapping[chans[|chans| - 1]], code)
  }

  /** The inner loop appends to each decodable key exactly the bindings its
      pairs give it, and leaves every other key alone. */
  lemma {:induction false} AddChannelForm(m: map<int, seq<Binding>>, known: set<int>, chan: byte, pairs: seq<KeyNote>, code: int)
    ensures var m' := AddChannel(m, known, chan, pairs);
      && (code in m' <==> code in m || (Decodes(known, code) && PairsFor(chan, pairs, code) != []))
      && BindingsOf(m', code) == BindingsOf(m, code) + (if Decodes(known, code) then PairsFor(chan, pairs, code) else [])
    decreases |pairs|
  {
    if pairs != [] {
      AddChannelForm(m, known, chan, pairs[..|pairs| - 1], code);
    }
  }

  /** After the first `i` channels, a key has an entry exactly when it
      decodes and some pair of those channels names it, and the entry holds
      the bindings they give it. */
  lemma {:induction false} ProperUpToForm(keymapping: map<byte, seq<KeyNote>>, known: set<int>, chans: seq<byte>, i: nat, code: int)
    requires i <= |chans| && forall j :: 0 <= j < |chans| ==> chans[j] in keymapping
    ensures var m := ProperUpTo(keymapping, known, chans, i);
      && (code in m <==> Decodes(known, code) && Gathered(keymapping, chans[..i], code) != [])
      && BindingsOf(m, code) == if Decodes(known, code) then Gathered(keymapping, chans[..i], code) else []
    decreases i
  {
    if i > 0 {
      ProperUpToForm(keymapping, known, chans, i - 1, code);
      AddChannelForm(ProperUpTo(keymapping, known, chans, i - 1), known, chans[i - 1], keymapping[chans[i - 1]], code);
      assert chans[..i][..i - 1] == chans[..i - 1];
    }
  }

  /** `get_proper_mapping` in closed form: a key has an entry exactly when
      it decodes and some channel maps it, and that entry lists each such
      `(channel, note)`, channel after channel in iteration order, pairs of a
      channel in their own order. */
  lemma ProperMappingForm(settings: AppSettings, known: set<int>, chans: seq<byte>, code: int)
    requires IsEnumeration(chans, settings.keymapping.Keys)
    ensures var m := ProperUpTo(settings.keymapping, known, chans, |chans|);
      && (code in m <==> Decodes(known, code) && Gathered(settings.keymapping, chans, code) != [])
      && (code in m ==> m[code] == Gathered(settings.keymapping, chans, code))
  {
    ProperUpToForm(settings.keymapping, known, chans, |chans|, code);
    assert chans[..|chans|] == chans;
  }

  /** A pair names `code` exactly when the bindings its channel gives
      `code` hold its note. */
  lemma {:induction false} PairsForHolds(chan: byte, pairs: seq<KeyNote>, code: int, b: Binding)
    ensures b in PairsFor(chan, pairs, code) <==> 0 <= code < 256 && b.0 == chan && (code as byte, b.1) in pairs
    decreases |pairs|
  {
    if pairs != [] {
      var init := pairs[..|pairs| - 1];
      PairsForHolds(chan, init, code, b);
      assert pairs == init + [pairs[|pairs| - 1]];
    }
  }

  /** A binding is gathered for `code` exactly when one of the channels maps
      `code` to its note on its channel. */
  lemma {:induction false} GatheredHolds(keymapping: map<byte, seq<KeyNote>>, chans: seq<byte>, code: int, b: Binding)
    requires forall j :: 0 <= j < |chans| ==> chans[j] in keymapping
    ensures b in Gathered(keymapping, chans, code) <==>
      0 <= code < 256 && b.0 in chans && b.0 in keymapping && (code as byte, b.1) in keymapping[b.0]
    decreases |chans|
  {
    if chans != [] {
      var init := chans[..|chans| - 1];
      var last := chans[|chans| - 1];
      GatheredHolds(keymapping, init, code, b);
      PairsForHolds(last, keymapping[last], code, b);
      assert chans == init + [last];
    }
  }

  /** Every pair whose key decodes shows up, as `(channel, note)`, among the
      bindings of its key; no other binding does; no pair is lost when its key
      decodes and none survives when it does not. */
  lemma ProperMappingSound(settings: AppSettings, known: set<int>, chans: seq<byte>, code: int, b: Binding)
    requires IsEnumeration(chans, settings.keymapping.Keys)
    ensures var m := ProperUpTo(settings.keymapping, known, chans, |chans|);
      b in BindingsOf(m, code) <==>
        && Decodes(known, code) && 0 <= code < 256 && b.0 in settings.keymapping
        && (code as byte, b.1) in settings.keymapping[b.0]
  {
    ProperUpToForm(settings.keymapping, known, chans, |chans|, code);
    assert chans[..|chans|] == chans;
    GatheredHolds(settings.keymapping, chans, code, b);
  }

  /** Every entry of the inverted mapping is non-empty, and every key with an
      entry decodes. */
  lemma ProperMappingNonEmpty(settings: AppSettings, known: set<int>, chans: seq<byte>)
    requires IsEnumeration(chans, settings.keymapping.Keys)
    ensures var m := ProperUpTo(settings.keymapping, known, chans, |chans|);
      forall code :: code in m ==> Decodes(known, code) && m[code] != []
  {
    var m := ProperUpTo(settings.keymapping, known, chans, |chans|);
    forall code | code in m
      ensures Decodes(known, code) && m[code] != []
    {
      ProperMappingForm(settings, known, chans, code);
    }
  }

  /** A key named by no pair: its bindings are empty. */
  lemma {:induction false} PairsForAbsent(chan: byte, pairs: seq<KeyNote>, code: int)
    requires forall i :: 0 <= i < |pairs| ==> pairs[i].0 != code
    ensures PairsFor(chan, pairs, code) == []
    decreases |pairs|
  {
    if pairs != [] {
      PairsForAbsent(chan, pairs[..|pairs| - 1], code);
    }
  }

  /** When the keys of a channel's pairs are distinct, the key of pair `i`
      gets exactly one binding from it: its note on that channel. */
  lemma {:induction false} PairsForDistinct(chan: byte, pairs: seq<KeyNote>, i: nat)
    requires i < |pairs| && forall j, k :: 0 <= j < k < |pairs| ==> pairs[j].0 != pairs[k].0
    ensures PairsFor(chan, pairs, pairs[i].0) == [(chan, pairs[i].1)]
    decreases |pairs|
  {
    var n := |pairs| - 1;
    if i == n {
      PairsForAbsent(chan, pairs[..n], pairs[i].0);
    } else {
      PairsForDistinct(chan, pairs[..n], i);
    }
  }

  // ---------------------------------------------------------------------------
  // The default configuration.

  /** The keys of the default configuration, in order: A W S D R F T G H U. */
  const DEFAULT_KEYS: seq<byte> := [A, W, S, D, R, F, T, G, H, U]

  /** `AppSettings::default`: only channel 0, on which the default keys play
      the notes 57 to 66 in sequence, and the default shift amount. */
  function Default(): (s: AppSettings)
    ensures s.keymapping.Keys == {0} && s.shiftAmount == 12
    ensures |s.keymapping[0]| == 10
    ensures forall i :: 0 <= i < 10 ==> s.keymapping[0][i] == (DEFAULT_KEYS[i], 57 + i)
  {
    AppSettings(map[0 := seq(10, i requires 0 <= i < 10 => (DEFAULT_KEYS[i], 57 + i))], DEFAULT_SHIFT_AMOUNT)
  }

  /** When the default keys decode, the default configuration binds each of
      them, and nothing else, to its one note on channel 0. */
  lemma DefaultMapping(known: set<int>)
    requires forall i :: 0 <= i < 10 ==> DEFAULT_KEYS[i] in known
    ensures var m := ProperUpTo(Default().keymapping, known, [0], 1);
      && m.Keys == (set i | 0 <= i < 10 :: DEFAULT_KEYS[i] as int)
      && (forall i :: 0 <= i < 10 ==> m[DEFAULT_KEYS[i]] == [(0, 57 + i)])
  {
    var s := Default();
    var pairs := s.keymapping[0];
    var m := ProperUpTo(s.keymapping, known, [0], 1);
    assert forall j, k :: 0 <= j < k < |pairs| ==> pairs[j].0 != pairs[k].0;
    forall i | 0 <= i < 10
      ensures DEFAULT_KEYS[i] in m && m[DEFAULT_KEYS[i]] == [(0, 57 + i)]
    {
      PairsForDistinct(0, pairs, i);
      ProperUpToForm(s.keymapping, known, [0], 1, DEFAULT_KEYS[i]);
    }
    forall code | code in m
      ensures exists i :: 0 <= i < 10 && code == DEFAULT_KEYS[i] as int
    {
      ProperUpToForm(s.keymapping, known, [0], 1, code);
      if forall i :: 0 <= i < 10 ==> pairs[i].0 != code {
        PairsForAbsent(0, pairs, code);
      }
    }
  }
}
