/** The values the native host and the web front end exchange: the status
    snapshot of the keys, the connected devices and the note configuration
    (the serde types of src/native/src/app.rs and their TypeScript mirrors in
    src/backend.ts). */
module Wire {
  import opened Service

  /** `MidiEntry`: one note of a key, by its base note id. */
  datatype MidiEntry = MidiEntry(note: int, velocity: real, channel: int, pressed: bool)

  /** `MidiUpdateEntry`: a key's magnitude and its notes. */
  datatype MidiUpdateEntry = MidiUpdateEntry(value: real, notes: seq<MidiEntry>)

  /** `MidiUpdate`: the reported keys, by HID code. */
  datatype MidiUpdate = MidiUpdate(data: map<int, MidiUpdateEntry>)

  /** `DeviceInfo` as the SDK reports it. */
  datatype DeviceInfo = DeviceInfo(vendorId: int, productId: int, manufacturerName: string, deviceName: string,
                                   deviceId: int, deviceType: int)

  /** `NoteConfig`. */
  datatype NoteConfig = NoteConfig(threshold: real, velocityScale: real)

  /** The port options as the front end receives them. */
  type PortOptions = seq<PortOption>
}
