/** The note names of the front end (src/app/utils/notes.ts): a MIDI note
    number becomes its pitch name and octave, `C4` being note 60. The
    arithmetic is JavaScript's: the octave is a floored quotient, the pitch
    class a remainder that keeps the sign of the dividend, and an index
    outside the name table reads as `undefined`. */
module NoteNames {
  /** Notes per octave. */
  const OCTAVE_NOTE_NO: int := 12

  /** An entry of `baseNames`: a plain name, or a black key named by its
      flat or its sharp. */
  datatype BaseName = Fixed(name: string) | Accidental(flatName: string, sharpName: string)

  const BASE_NAMES: seq<BaseName> := [
    Fixed("C"), Accidental("Db", "C#"), Fixed("D"), Accidental("Eb", "D#"), Fixed("E"), Fixed("F"),
    Accidental("Gb", "F#"), Fixed("G"), Accidental("Ab", "G#"), Fixed("A"), Accidental("Bb", "A#"), Fixed("B")]

  /** `typeof baseName == "function"`: a black key's name depends on `flat`. */
  function Resolve(b: BaseName, flat: bool): string
  {
    match b
    case Fixed(name) => name
    case Accidental(flatName, sharpName) => if flat then flatName else sharpName
  }

  /** The decimal digits of `n`, most significant first. */
  function Digits(n: nat): (s: string)
    ensures |s| > 0 && forall i :: 0 <= i < |s| ==> '0' <= s[i] <= '9'
    decreases n
  {
    if n < 10 then [DigitChar(n)] else Digits(n / 10) + [DigitChar(n % 10)]
  }

  function DigitChar(d: nat): (c: char)
    requires d < 10
    ensures '0' <= c <= '9'
  {
    ['0', '1', '2', '3', '4', '5', '6', '7', '8', '9'][d]
  }

  /** A number in a template literal: its decimal digits, after a minus sign
      when negative. */
  function IntToString(n: int): (s: string)
    ensures |s| > 0 && (s[0] == '-' || '0' <= s[0] <= '9')
  {
    if n < 0 then "-" + Digits(-n) else Digits(n)
  }

  /** JavaScript's `%`: the remainder takes the sign of the dividend. */
  function JsRem(a: int, b: int): (r: int)
    requires b > 0
    ensures -b < r < b && (a >= 0 ==> r == a % b)
  {
    if a >= 0 then a % b else -((-a) % b)
  }

  /** `midiNumberToNote(noteID, flat = false)`. */
  function MidiNumberToNote(noteId: int, flat: bool := false): string
  {
    var octaveNumber := noteId / OCTAVE_NOTE_NO - 1;
    var octavePart := JsRem(noteId, OCTAVE_NOTE_NO);
    var baseName := if 0 <= octavePart < |BASE_NAMES| then Resolve(BASE_NAMES[octavePart], flat) else "undefined";
    baseName + IntToString(octaveNumber)
  }

  /** The name of a note is its pitch class's name followed by its octave,
      `floor(n / 12) - 1`. */
  lemma NameParts(n: nat, flat: bool)
    ensures MidiNumberToNote(n, flat) == Resolve(BASE_NAMES[n % 12], flat) + IntToString(n / 12 - 1)
  {
  }

  /** The values the front end's tests expect. */
  lemma TestValues()
    ensures MidiNumberToNote(12) == "C0" && MidiNumberToNote(24) == "C1"
    ensures MidiNumberToNote(15) == "D#0" && MidiNumberToNote(89) == "F6"
    ensures MidiNumberToNote(12, true) == "C0" && MidiNumberToNote(24, true) == "C1"
    ensures MidiNumberToNote(15, true) == "Eb0" && MidiNumberToNote(89, true) == "F6"
  {
    assert Digits(0) == "0" && Digits(1) == "1" && Digits(6) == "6";
  }

  /** The white keys are named the same whatever `flat` says. */
  lemma NaturalsIgnoreFlat(n: nat)
    requires n % 12 in {0, 2, 4, 5, 7, 9, 11}
    ensures MidiNumberToNote(n, true) == MidiNumberToNote(n, false)
  {
  }

  /** The black keys are named by their sharps by default and by their flats
      when `flat` is set. */
  lemma BlackKeyNames()
    ensures forall n: nat :: n % 12 in {1, 3, 6, 8, 10} ==>
      && Resolve(BASE_NAMES[n % 12], false) in {"C#", "D#", "F#", "G#", "A#"}
      && Resolve(BASE_NAMES[n % 12], true) in {"Db", "Eb", "Gb", "Ab", "Bb"}
  {
  }

  /** Twelve semitones up is the same name one octave higher. */
  lemma OctaveUp(n: nat, flat: bool)
    ensures MidiNumberToNote(n + 12, flat) == Resolve(BASE_NAMES[n % 12], flat) + IntToString(n / 12)
  {
    assert (n + 12) % 12 == n % 12;
    assert (n + 12) / 12 == n / 12 + 1;
  }

  /** Below zero the remainder is negative, so the table misses and the
      name starts with `undefined`, except on whole octaves. */
  lemma NegativeIsUndefined(n: int)
    requires n < 0 && n % 12 != 0
    ensures var s := MidiNumberToNote(n);
      |s| >= 9 && s[..9] == "undefined"
  {
    assert JsRem(n, 12) < 0;
    var s := MidiNumberToNote(n);
    assert s == "undefined" + IntToString(n / 12 - 1);
    assert s[..9] == "undefined";
  }

  // ---------------------------------------------------------------------------
  // Distinct notes have distinct names.

  /** Equal digit strings are the same number. */
  lemma {:induction false} DigitsInjective(a: nat, b: nat)
    requires Digits(a) == Digits(b)
    ensures a == b
    decreases a
  {
    var da, db := Digits(a), Digits(b);
    assert (|da| == 1) == (a < 10) && (|db| == 1) == (b < 10);
    if a >= 10 {
      assert da[..|da| - 1] == Digits(a / 10) && db[..|db| - 1] == Digits(b / 10);
      DigitsInjective(a / 10, b / 10);
      DigitCharInjective(a % 10, b % 10);
    } else {
      DigitCharInjective(a, b);
    }
  }

  lemma DigitCharInjective(a: nat, b: nat)
    requires a < 10 && b < 10 && DigitChar(a) == DigitChar(b)
    ensures a == b
  {
  }

  lemma IntToStringInjective(a: int, b: int)
    requires IntToString(a) == IntToString(b)
    ensures a == b
  {
    var sa, sb := IntToString(a), IntToString(b);
    assert (sa[0] == '-') == (a < 0) && (sb[0] == '-') == (b < 0);
    if a < 0 {
      assert sa[1..] == Digits(-a) && sb[1..] == Digits(-b);
      DigitsInjective(-a, -b);
    } else {
      DigitsInjective(a, b);
    }
  }

  /** A resolved base name is a letter, maybe followed by `#` or `b`: no
      digit and no minus sign. */
  predicate Letters(s: string)
  {
    forall i :: 0 <= i < |s| ==> s[i] in "ABCDEFGb#"
  }

  lemma ResolvedIsLetters(k: nat, flat: bool)
    requires k < 12
    ensures Letters(Resolve(BASE_NAMES[k], flat)) && |Resolve(BASE_NAMES[k], flat)| > 0
  {
  }

  /** Two pitch classes with the same resolved name are the same. */
  lemma ResolveInjective(j: nat, k: nat, flat: bool)
    requires j < 12 && k < 12 && Resolve(BASE_NAMES[j], flat) == Resolve(BASE_NAMES[k], flat)
    ensures j == k
  {
  }

  /** The length of the run of letters that starts `s`. */
  function LetterPrefix(s: string): (n: nat)
    ensures n <= |s|
    decreases |s|
  {
    if s == [] || s[0] !in "ABCDEFGb#" then 0 else 1 + LetterPrefix(s[1..])
  }

  /** In letters followed by a number, the letter run is exactly the
      letters. */
  lemma {:induction false} LetterPrefixOf(b: string, o: string)
    requires Letters(b) && |o| > 0 && (o[0] == '-' || '0' <= o[0] <= '9')
    ensures LetterPrefix(b + o) == |b|
    decreases |b|
  {
    if b == [] {
      assert b + o == o;
    } else {
      assert (b + o)[0] == b[0] && (b + o)[1..] == b[1..] + o;
      LetterPrefixOf(b[1..], o);
    }
  }

  /** A name splits uniquely into its letters and its number, because the
      number starts with a digit or a minus sign. */
  lemma SplitName(b1: string, o1: string, b2: string, o2: string)
    requires Letters(b1) && Letters(b2)
    requires |o1| > 0 && (o1[0] == '-' || '0' <= o1[0] <= '9')
    requires |o2| > 0 && (o2[0] == '-' || '0' <= o2[0] <= '9')
    requires b1 + o1 == b2 + o2
    ensures b1 == b2 && o1 == o2
  {
    LetterPrefixOf(b1, o1);
    LetterPrefixOf(b2, o2);
    assert b1 == (b1 + o1)[..|b1|] && b2 == (b2 + o2)[..|b2|];
    assert o1 == (b1 + o1)[|b1|..] && o2 == (b2 + o2)[|b2|..];
  }

  /** With the same `flat`, two different note numbers never get the same
      name: the name determines the note. */
  lemma NamesAreDistinct(m: nat, n: nat, flat: bool)
    requires MidiNumberToNote(m, flat) == MidiNumberToNote(n, flat)
    ensures m == n
  {
    NameParts(m, flat);
    NameParts(n, flat);
    ResolvedIsLetters(m % 12, flat);
    ResolvedIsLetters(n % 12, flat);
    SplitName(Resolve(BASE_NAMES[m % 12], flat), IntToString(m / 12 - 1),
              Resolve(BASE_NAMES[n % 12], flat), IntToString(n / 12 - 1));
    ResolveInjective(m % 12, n % 12, flat);
    IntToStringInjective(m / 12 - 1, n / 12 - 1);
  }
}
