/** USB HID usage identifiers (keyboard/keypad page of the HID Usage Tables) of
    the keys the project names. The analog SDK's `HIDCodes` enum is not part of
    this model: which numbers decode to a key is the parameter `known`, and a
    decoded key is identified with its number. */
module Hid {
  const A := 0x04
  const D := 0x07
  const E := 0x08
  const F := 0x09
  const G := 0x0A
  const H := 0x0B
  const I := 0x0C
  const O := 0x12
  const P := 0x13
  const Q := 0x14
  const R := 0x15
  const S := 0x16
  const T := 0x17
  const U := 0x18
  const W := 0x1A
  const Y := 0x1C
  const LEFT_SHIFT := 0xE1

  /** `HIDCodes::from_u8` / `from_u16`: a number decodes iff it is a discriminant. */
  predicate Decodes(known: set<int>, code: int)
  {
    code in known
  }
}
