# Wooting analog MIDI, modelled in Dafny

This project models the core of Wooting's analog MIDI application. The
application turns how far each key of an analog keyboard is pressed (its
magnitude, from 0 to 1) into MIDI messages. Its parts are modelled as follows.

- **Note engine** (`wooting-analog-midi/src/lib.rs`): each `Note` turns the
  previous and new magnitude of its key, plus the modifier state, into
  note-on, aftertouch and note-off messages. A `Key` fans one magnitude out to
  all its notes and is rebound when the mapping changes. The `MidiService`
  keeps the key table, the port options and the connection, rebinds the table
  (`update_mapping`), selects ports (`init`, `select_port`) and dispatches
  each analog buffer read (`poll`). The byte encoders of its sink are
  modelled too.
- **Native host** (`src/native/src/app.rs`): one step of the poll loop. It
  decides when the `NoDevices`, `FoundDevices` and status-snapshot events are
  sent, and which keys a snapshot reports. It also models the time-throttled
  saving of the settings, `update_config`, `select_port` and
  `process_command`.
- **Mapping inversion** (`src-tauri/src/settings.rs`): `get_proper_mapping`
  turns channel → [(key, note)] into key → [(channel, note)]. The default
  settings are modelled too.
- **Prototype** (`src/main.rs`): the older command-line program. It has a
  channel-less note with its own byte encoders, a fixed key row and its own
  dispatch loop.
- **Front end** (`src/app/utils/notes.ts`, `src/settings-context.tsx`,
  `src/state-context.tsx`): note names (`midiNumberToNote`), the settings
  reducer with its `undefinedReducer` wrapper, and the reducer that follows
  the host's events.

One module per source file: `Wrappers`, `Hid`, `MidiMessages`, `NoteEngine`,
`Service`, `Settings`, `Wire`, `HostApp`, `Prototype`, `NoteNames`,
`SettingsReducer` and `ServiceStateReducer`. Where the source mutates state,
the model does too:

- `Connection`, `Note`, `Key` and `MidiService` are classes whose methods
  change their fields.
- The same goes for the prototype's `ProtoNote` and `ProtoSink`, and for the
  host's `PollLoop`, `EventSender` and `App`.
- Each of those methods is proved against a function on values: `Update`,
  `Fan`, `Rebound`, `RemapUpTo`, `PollUpTo`, `Select`, `Step`, `TickSpec`,
  `SaveStep` or `ProperUpTo`. The lemmas are stated about those functions.

Inputs of the model:

- **The world outside the program is passed in as parameters**: the analog
  buffer read, the port list of the MIDI back end, whether a port opens,
  whether a file write succeeds, and the clock reading.
- **A MIDI connection's failures** are captured by a budget. `room` is how many
  further messages the port accepts. Every failed send aborts the rest of the
  operation through Rust's `?`, so a single budget covers every point at which
  a send can fail. Because `room` only ever decreases, the class model
  cannot express a port that refuses once and later accepts again; the
  per-tick budgets of `RunReplays` and the value functions can.
- **Hash-map iteration order** is an explicit sequence (`order`, `chans`)
  that lists the keys exactly once (`IsEnumeration`).
- **`HIDCodes::from_u8` / `from_u16`** become membership in a set `known` of
  the codes the enum defines. A code is identified with its number.
- **Integer widths**:
  - `note_id + 1` wraps modulo 256, as in a release build.
  - `iter_count += 1` wraps modulo 2^32, as in a release build.
  - The `as u8` data-byte cast truncates and saturates.

The model follows the code in these points:

- The library sends aftertouch on every tick a note stays pressed, not only
  when the magnitude changes.
- It uses the fixed `THRESHOLD = 0.1` (`lib.rs:29`) and has no note-range
  check.
- A channel of 16 or more spills into the status nibble.
- `Key::update_mappings` discards the remaining drained notes when a note-off
  fails.

`src/native/src/settings.rs`, which the native host uses, is not part of this
model. The host's settings take the shape `app.rs` gives them (key mapping,
shift amount, note configuration). The model assumes that the native settings
invert the key mapping as the `get_proper_mapping` of
`src-tauri/src/settings.rs` does.

## Model

| member | source | states |
|---|---|---|
| MidiMessages.DataByte | wooting-analog-midi/src/lib.rs:55 | the velocity/pressure byte is `floor(min(x,1)·127)`, 0 for negative products, never above 127 |
| MidiMessages.EncodeDecode | wooting-analog-midi/src/lib.rs:54-78 | for channels below 16 every message is 3 bytes and decodes back to its kind, channel and note, with the clamped data byte |
| MidiMessages.ChannelSpillsIntoKind | wooting-analog-midi/src/lib.rs:60-63 | the channel is not masked: channel 16 turns a note-off status into a note-on on channel 0 |
| MidiMessages.ProtoEncodeIsChannelZero | src/main.rs:61-76 | the prototype's bytes are the library's bytes on channel 0; status 0x90, 0x80 or 0xA0; data byte ≤ 127; decodes back |
| MidiMessages.EncodeAllAppend | wooting-analog-midi/src/lib.rs:56 | the bytes of two message runs are the bytes of each, concatenated |
| NoteEngine.Connection.constructor | wooting-analog-midi/src/lib.rs:295-299 | an opened connection has sent nothing and has the given room |
| NoteEngine.Connection.Wire | wooting-analog-midi/src/lib.rs:53-79 | the bytes on the wire: one encoded message per accepted message |
| NoteEngine.Connection.Send | wooting-analog-midi/src/lib.rs:54-78 | a send succeeds exactly when the port has room, and then appends the message and uses up one unit of room |
| NoteEngine.Connection.SendAll | wooting-analog-midi/src/lib.rs:187-189 | sends the messages the port has room for, in order |
| NoteEngine.ModifierShiftsByOne | wooting-analog-midi/src/lib.rs:101-108 | the effective note is the base note, or the base note plus 1 (mod 256) while the modifier was active |
| NoteEngine.NextVelocity | wooting-analog-midi/src/lib.rs:117-123 | the new velocity is in [0,1]: at least twice the rise and 0.9 of the old one, capped at 1, and (unless 0) no more than the larger of the two |
| NoteEngine.VelocityDecays | wooting-analog-midi/src/lib.rs:117-123 | a key that is not rising keeps 0.9 of its velocity estimate |
| NoteEngine.Trigger | wooting-analog-midi/src/lib.rs:133-150 | the threshold part: at most one message; a note-on only from released, a note-off only from pressed |
| NoteEngine.Update | wooting-analog-midi/src/lib.rs:110-153 | a whole update sends at most two messages, keeps note id and channel, and on success leaves the velocity in [0,1] |
| NoteEngine.UpdatePostState | wooting-analog-midi/src/lib.rs:117-150 | after a successful update, `pressed == (new > 0.1)` and `modifier_active ==` the modifier given; velocity in [0,1] |
| NoteEngine.UpdateReplays | wooting-analog-midi/src/lib.rs:101-108 | whatever the inputs and wherever a send fails, the receiver hears a well-formed stream: a note-off carries the pitch of the note-on that began the press |
| NoteEngine.TriggerReplays | wooting-analog-midi/src/lib.rs:133-150 | the threshold part alone replays cleanly from the note's sounding pitch |
| NoteEngine.HeldNoteSendsAftertouch | wooting-analog-midi/src/lib.rs:138-143 | pressed, still above the threshold, modifier unchanged: exactly one aftertouch carrying the new magnitude |
| NoteEngine.IdleNoteIsSilent | wooting-analog-midi/src/lib.rs:144-150 | released and at or below the threshold: no message |
| NoteEngine.ModifierFlipRepitches | wooting-analog-midi/src/lib.rs:124-137 | a modifier flip while held above the threshold sends note-off at the old pitch, then note-on at the new pitch |
| NoteEngine.CrossingsSendOnAndOff | wooting-analog-midi/src/lib.rs:133-150 | the first crossing above the threshold sends a note-on; falling to or below it while pressed sends a note-off |
| NoteEngine.UpdateTruncates | wooting-analog-midi/src/lib.rs:127-141 | a refusing port only truncates the messages of an update; the update succeeds exactly when all fit |
| NoteEngine.ReplayAppend | wooting-analog-midi/src/lib.rs:110-153 | replaying two runs of messages is replaying the second from where the first left off |
| NoteEngine.RunReplays | wooting-analog-midi/src/lib.rs:110-153 | over any number of ticks a note's stream replays cleanly and ends at the pitch the note says it sounds |
| NoteEngine.NoteOnNeedsOffFirst | wooting-analog-midi/src/lib.rs:133-150 | in a clean stream a note-on at position m is preceded by a note-off after any earlier note-on |
| NoteEngine.ReplayAlternates | wooting-analog-midi/src/lib.rs:133-150 | a clean stream never has two note-ons without a note-off between them |
| NoteEngine.FreshNoteAlternates | wooting-analog-midi/src/lib.rs:91-99 | from `Note::new`, the stream replays from silence and alternates note-on … note-off |
| NoteEngine.Note.constructor | wooting-analog-midi/src/lib.rs:91-99 | `Note::new`: unpressed, velocity 0, no modifier, with the given channel and note |
| NoteEngine.Note.UpdateCurrentValue | wooting-analog-midi/src/lib.rs:110-153 | the in-place note ends in the state, and the connection has taken the messages, that `Update` gives |
| NoteEngine.Note.Threshold | wooting-analog-midi/src/lib.rs:133-150 | the in-place threshold part matches `Trigger` |
| NoteEngine.Note.Drop | wooting-analog-midi/src/lib.rs:155-164 | a pressed note sends one note-off at its pitch if there is a sink; without a sink nothing changes |
| NoteEngine.FanUpTo | wooting-analog-midi/src/lib.rs:187-189 | the fan-out loop keeps the number of notes and never sends more than the room |
| NoteEngine.Fan | wooting-analog-midi/src/lib.rs:181-193 | `Key::update_value` on values: same note count, and the events stay within the room |
| NoteEngine.FanDone | wooting-analog-midi/src/lib.rs:187-191 | where the loop stops, the whole fan-out is known |
| NoteEngine.FanStopped | wooting-analog-midi/src/lib.rs:188 | after a failed send, later notes add nothing and keep their state |
| NoteEngine.UpdateRoomIrrelevant | wooting-analog-midi/src/lib.rs:110-153 | with room for all its messages, an update does not depend on how much room there is |
| NoteEngine.FanIsPointwise | wooting-analog-midi/src/lib.rs:181-193 | with an accepting port every note of a key ends as if updated alone with the same old value, new value and modifier, in list order |
| NoteEngine.Released | wooting-analog-midi/src/lib.rs:201-203 | the note-offs of a forced release of every note are at most one per note |
| NoteEngine.ReleasedCount | wooting-analog-midi/src/lib.rs:155-164 | a forced release sends one note-off per pressed note and nothing for the others |
| NoteEngine.ReleaseSilences | wooting-analog-midi/src/lib.rs:155-164 | the note-off a release sends closes exactly the sounding pitch |
| NoteEngine.Rebound | wooting-analog-midi/src/lib.rs:196-210 | rebinding keeps the magnitude; on success the key holds the new notes, on failure none |
| NoteEngine.RebindingResult | wooting-analog-midi/src/lib.rs:196-210 | on success exactly the fresh notes of the bindings, and one note-off per previously pressed note when there is a sink, none without one |
| NoteEngine.DrainFailed | wooting-analog-midi/src/lib.rs:201-203 | a note-off refused mid-drain: the port took exactly the note-offs before it |
| NoteEngine.Key.States | wooting-analog-midi/src/lib.rs:169 | the note states of a key, one per note, in order |
| NoteEngine.Key.constructor | wooting-analog-midi/src/lib.rs:174-179 | `Key::new`: no notes, magnitude 0 |
| NoteEngine.Key.UpdateValue | wooting-analog-midi/src/lib.rs:181-193 | the in-place key ends as `Fan` says; the magnitude is stored only when every send succeeded |
| NoteEngine.Key.FanOut | wooting-analog-midi/src/lib.rs:187-189 | the loop of `update_value` leaves the notes and the connection as `Fan` says |
| NoteEngine.Key.FanOutDone | wooting-analog-midi/src/lib.rs:187-189 | where the loop stops, the key's notes are those of the whole fan-out |
| NoteEngine.Key.FanStep | wooting-analog-midi/src/lib.rs:188 | one pass of the loop advances the fan-out by one note |
| NoteEngine.Key.UpdateNoteAt | wooting-analog-midi/src/lib.rs:188 | the i-th note is updated as `Update` says, the others untouched |
| NoteEngine.Key.UpdateMappings | wooting-analog-midi/src/lib.rs:196-210 | the in-place key ends as `Rebound` says and the connection took its note-offs |
| NoteEngine.Key.Push | wooting-analog-midi/src/lib.rs:205-207 | an emptied key gets one fresh note per binding, in order |
| NoteEngine.Key.Drain | wooting-analog-midi/src/lib.rs:201-203 | the old notes are dropped in order; the key ends empty; a failed note-off ends the drain |
| NoteEngine.Key.DrainStep | wooting-analog-midi/src/lib.rs:202 | one pass of the drain drops the i-th note |
| NoteEngine.Key.DropAt | wooting-analog-midi/src/lib.rs:202 | `Note::drop` on the i-th note, the others untouched |
| Service.Options | wooting-analog-midi/src/lib.rs:285-291 | one option per port name |
| Service.OptionsFlagSelected | wooting-analog-midi/src/lib.rs:289 | option i is port i with its name, and exactly the selected one is active |
| Service.MappingFor | wooting-analog-midi/src/lib.rs:253-257 | a key missing from the mapping gets the empty list |
| Service.Spent | wooting-analog-midi/src/lib.rs:254 | the room left after n more messages |
| Service.RemapKey | wooting-analog-midi/src/lib.rs:252-258 | one turn of the loop keeps the table's keys, cannot fail without a sink, and accounts each message against the room |
| Service.RemapUpTo | wooting-analog-midi/src/lib.rs:246-259 | the loop over the table keeps its keys; without a connection it succeeds and sends nothing; with one, messages plus room left equal the room before |
| Service.RemapStopped | wooting-analog-midi/src/lib.rs:254-256 | after a failed note-off later keys are left alone |
| Service.RemapPrefix | wooting-analog-midi/src/lib.rs:252-258 | after i keys, on success, exactly the visited keys are rebound to their mapping entry, keeping their magnitude |
| Service.RemapResult | wooting-analog-midi/src/lib.rs:246-259 | `update_mapping` applies the mapping to every key, an empty list for keys not in it; without a connection it cannot fail and sends nothing |
| Service.SendRebinding | wooting-analog-midi/src/lib.rs:254-256 | one key rebound through the connection, if there is one, as `Rebound` says |
| Service.RemapThrough | wooting-analog-midi/src/lib.rs:252-258 | the loop with a connection sends and leaves in the table what `RemapUpTo` says |
| Service.RemapOne | wooting-analog-midi/src/lib.rs:253-257 | one turn of the loop with a connection matches `RemapKey` |
| Service.RemapDetached | wooting-analog-midi/src/lib.rs:252-258 | the loop without a connection matches `RemapUpTo` with no sink |
| Service.ModifierPressed | wooting-analog-midi/src/lib.rs:366-367 | the modifier is pressed iff the LeftShift magnitude is at least 0.2; absent counts as released |
| Service.PollUpTo | wooting-analog-midi/src/lib.rs:368-378 | the dispatch loop keeps the table's keys and the room accounting |
| Service.PollStopped | wooting-analog-midi/src/lib.rs:371-375 | after a failed send later buffer entries are ignored |
| Service.PollPrefix | wooting-analog-midi/src/lib.rs:368-378 | after i entries, a key whose code is not among them or does not decode is unchanged |
| Service.PollTouchesOnlyBufferedKeys | wooting-analog-midi/src/lib.rs:368-378 | `poll` changes only keys present in both the buffer (under a decodable code) and the table |
| Service.PollStoresPrefix | wooting-analog-midi/src/lib.rs:368-378 | after i entries, on success, each visited decodable key stores its buffered magnitude and keeps its note count |
| Service.PollStoresMagnitudes | wooting-analog-midi/src/lib.rs:357-385 | a successful poll stores every buffered magnitude in its key; no key gains or loses notes |
| Service.NoteMappingKeys | wooting-analog-midi/src/lib.rs:213-221 | `generate_note_mapping` holds exactly the codes below 255 that decode, each a `Key::new` |
| Service.SelectCases | wooting-analog-midi/src/lib.rs:307-355 | before `init` and past the list: an error, nothing changed; an active option: Ok, nothing changed; rebuilt options flag exactly the chosen one; a new connection only on Ok |
| Service.SelectTwice | wooting-analog-midi/src/lib.rs:316-319 | selecting again after a successful selection changes nothing, whatever the back end |
| Service.StartFlagsFirst | wooting-analog-midi/src/lib.rs:263-305 | `init` stops at the `unwrap` panic iff the device list cannot be read, and at the `assert_eq!` panic iff its length differs from the SDK's count, leaving the options alone; otherwise it flags exactly option 0; it connects iff there is a port and opening it works; Ok iff the SDK starts, the device counts agree, MIDI starts and the port opens (or there is none) |
| Service.MidiService.constructor | wooting-analog-midi/src/lib.rs:238-244 | `MidiService::new`: no options, no connection, the table of `generate_note_mapping` |
| Service.MidiService.UpdateMapping | wooting-analog-midi/src/lib.rs:246-259 | the table and the connection end as `RemapUpTo` says; a failure is `SendFailed`; options and connection object unchanged |
| Service.MidiService.Poll | wooting-analog-midi/src/lib.rs:357-385 | no connection: `NoConnection`, nothing changes; failed read: `ReadFailed`, nothing changes; otherwise the table and connection end as `PollUpTo` says |
| Service.MidiService.SelectPort | wooting-analog-midi/src/lib.rs:307-355 | the outcome and port options are those of `Select`; a fresh connection only when `Select` reconnects; the table unchanged |
| Service.MidiService.Init | wooting-analog-midi/src/lib.rs:263-305 | the outcome (including the two device-list panics) and port options are those of `Start`; a fresh connection only when it connects; the key table unchanged |
| Settings.GetProperMapping | src-tauri/src/settings.rs:69-97 | the nested loops build exactly `ProperUpTo` over all channels |
| Settings.AddChannelForm | src-tauri/src/settings.rs:73-87 | the inner loop appends to each decodable key exactly its pairs' bindings, in order, and leaves other keys alone |
| Settings.ProperUpToForm | src-tauri/src/settings.rs:72-88 | after i channels a key has an entry iff it decodes and one of those channels names it; the entry is their bindings |
| Settings.ProperMappingForm | src-tauri/src/settings.rs:69-97 | closed form: an entry iff the key decodes and some channel maps it; the entry lists its (channel, note) pairs, channel after channel, each channel's pairs in their order |
| Settings.PairsForHolds | src-tauri/src/settings.rs:73-85 | a binding is among those a channel gives a key iff one of that channel's pairs names the key with that note |
| Settings.GatheredHolds | src-tauri/src/settings.rs:72-87 | a binding is gathered for a key iff some channel maps the key to that note on that channel |
| Settings.ProperMappingSound | src-tauri/src/settings.rs:72-87 | every pair whose key decodes appears as (channel, note) under its key; nothing else appears; a pair whose key does not decode is dropped |
| Settings.ProperMappingNonEmpty | src-tauri/src/settings.rs:76-85 | every entry of the result is non-empty and its key decodes |
| Settings.PairsForAbsent | src-tauri/src/settings.rs:73-86 | a key named by no pair of a channel gets nothing from it |
| Settings.PairsForDistinct | src-tauri/src/settings.rs:73-86 | with distinct keys in a channel, the key of pair i gets exactly its one binding from that channel |
| Settings.Default | src-tauri/src/settings.rs:100-123 | only channel 0, holding the ten default keys with notes 57 to 66 in sequence; shift amount 12 |
| Settings.DefaultMapping | src-tauri/src/settings.rs:100-123 | when the default keys decode, the inverted default binds exactly those ten keys, each to its one note on channel 0 |
| Prototype.KeymappingRow | src/main.rs:39-53 | the mapped keys are exactly Q W E R T Y U I O P, distinct, playing 57 to 66 in order |
| Prototype.StepPostState | src/main.rs:102-125 | after an update, `pressure == currentValue == new`, `pressed == (new > 0.1)`, velocity in [0,1] computed against the stored pressure; the note id is kept |
| Prototype.StepTransitions | src/main.rs:107-124 | first crossing: note-on; held above: aftertouch with the new magnitude; falling while pressed: note-off; otherwise nothing |
| Prototype.StepReplays | src/main.rs:107-124 | each update keeps the stream well formed from the note's sounding pitch |
| Prototype.RunReplays | src/main.rs:102-125 | over any series of magnitudes the stream replays cleanly |
| Prototype.RunChannelZero | src/main.rs:110-121 | every message of a run is on channel 0 and carries the note's id |
| Prototype.FreshNoteAlternates | src/main.rs:89-125 | from `Note::new` the messages follow on, aftertouch*, off; a note-on never follows another without a note-off between them |
| Prototype.WireBytes | src/main.rs:61-76 | each message is three bytes with status exactly 0x90, 0x80 or 0xA0, the note, and a data byte ≤ 127 |
| Prototype.ProtoSink.constructor | src/main.rs:54-59 | a new sink has written nothing |
| Prototype.ProtoSink.Wire | src/main.rs:61-76 | one channel-less message per send |
| Prototype.ProtoSink.Send | src/main.rs:65 | every send is written; its result is ignored |
| Prototype.ProtoSink.SendAll | src/main.rs:107-124 | the messages of one update are written in order |
| Prototype.ProtoNote.constructor | src/main.rs:89-99 | `Note::new`: unpressed, zero value, velocity and pressure, with the given note id |
| Prototype.ProtoNote.UpdateCurrentValue | src/main.rs:102-125 | the in-place note and the sink end as `Step` says |
| Prototype.GenerateNoteMapping | src/main.rs:137-139 | one fresh note per mapped key, with that key's note id |
| Prototype.DispatchUpTo | src/main.rs:210-216 | the dispatch loop keeps the table's keys |
| Prototype.DispatchPrefix | src/main.rs:210-216 | after i entries the visited decodable notes took their magnitude; all others are unchanged |
| Prototype.DispatchTouchesOnlyBufferedNotes | src/main.rs:210-216 | only the notes of decodable codes in the buffer are updated, each taking its magnitude and keeping its id |
| Prototype.Dispatch | src/main.rs:210-216 | the loop leaves the notes and the sink as `DispatchUpTo` says |
| HostApp.Entry | src/native/src/app.rs:194-206 | an entry carries the key's magnitude and one note entry per note |
| HostApp.SnapshotContents | src/native/src/app.rs:186-213 | the snapshot holds exactly the keys with notes or a positive magnitude; each lists every note's base note id, velocity, channel and pressed flag, in order |
| HostApp.SnapshotShowsPressed | src/native/src/app.rs:191-204 | a key with a pressed note is always reported, showing it pressed |
| HostApp.SnapshotDropsIdle | src/native/src/app.rs:191 | a key with no notes and no positive magnitude is left out |
| HostApp.TickCases | src/native/src/app.rs:140-183 | NoDevices while devices were known: the flag clears and exactly one NoDevices goes out; again: nothing; other errors: nothing, flag kept; a good poll with no devices known sends FoundDevices and sets the flag iff that send worked |
| HostApp.TickSnapshot | src/native/src/app.rs:185-217 | a snapshot is sent exactly on error-free ticks with `iter_count % 3 == 0`, as the tick's last event, and shows the table after the poll |
| HostApp.TicksCount | src/native/src/app.rs:220 | after n iterations, error or not, the counter advanced by n modulo 2^32 |
| HostApp.WrapSendsTwoSnapshots | src/native/src/app.rs:185 | since 2^32 is not a multiple of 3, iterations 2^32−1 and 0 both send a snapshot |
| HostApp.StatusAppend | src/native/src/app.rs:148-182 | the device status and the alternation over two event runs compose |
| HostApp.OneEvent | src/native/src/app.rs:152-176 | NoDevices clears the device status, FoundDevices sets it, other events keep it |
| HostApp.TickKeepsStatus | src/native/src/app.rs:146-183 | while the front end receives, a tick keeps its device status equal to `has_devices` and the device events alternating |
| HostApp.TicksKeepStatus | src/native/src/app.rs:137-222 | over any run: one NoDevices per loss, one FoundDevices per recovery, and the front end's view ends equal to `has_devices` |
| HostApp.BeginSetsStatus | src/native/src/app.rs:105-135 | the events before the loop already leave the front end's view equal to `has_devices` |
| HostApp.EventSender.constructor | src/native/src/app.rs:99 | a new channel has delivered nothing and its receiver is alive |
| HostApp.EventSender.Send | src/native/src/app.rs:114-118 | a send succeeds iff the receiver is alive, and only then is the event delivered |
| HostApp.EventSender.Close | src/native/src/app.rs:99 | after the receiver is dropped, nothing more is delivered |
| HostApp.PollLoop.constructor | src/native/src/app.rs:97-105 | `has_devices` iff the service counted devices; counter 0 |
| HostApp.PollLoop.Begin | src/native/src/app.rs:106-135 | FoundDevices when devices are known, then the port options; no options: the thread panics after the first send |
| HostApp.PollLoop.Tick | src/native/src/app.rs:138-221 | the loop state and the delivered events are those of `TickSpec` |
| HostApp.Elapsed | src/native/src/app.rs:245 | `Instant::elapsed` is never negative and is `now − since` for a later clock reading |
| HostApp.SaveStepCases | src/native/src/app.rs:244-251 | the last save time moves, to now, only when a due write succeeds; a failed write or one within 5 s of the last save leaves it |
| HostApp.SavesAreSpaced | src/native/src/app.rs:244-251 | with a clock that never goes back, successful writes are at least 5 s apart and at least 5 s after an earlier save; the last save time is the last successful write |
| HostApp.SelectedHasOptions | src/native/src/app.rs:274-285 | after a successful `select_port` the options exist and flag the chosen one, so the host's `unwrap` cannot fail |
| HostApp.App.constructor | src/native/src/app.rs:75-83 | `App::new`: given settings and service, no save yet |
| HostApp.App.SaveConfig | src/native/src/app.rs:244-251 | writes the settings only when due; the last save time follows `SaveStep` |
| HostApp.App.UpdateConfig | src/native/src/app.rs:230-242 | the settings are replaced; the service gets the inverted mapping, the shift amount and the note config; then a throttled save |
| HostApp.App.SelectPort | src/native/src/app.rs:274-285 | the service's error is passed on; on success the reply is the new port options |
| HostApp.App.ProcessCommand | src/native/src/app.rs:301-313 | RequestConfig: the settings; PortOptions: the options (both change nothing); UpdateConfig: Null, with settings, service, last save time and stored settings as `update_config` leaves them; SelectPort: reply, service and unchanged save state as `select_port` gives them |
| NoteNames.Digits | src/app/utils/notes.ts:28 | a number's decimal digits: non-empty, digits only |
| NoteNames.IntToString | src/app/utils/notes.ts:28 | a number in a template literal starts with a digit or a minus sign |
| NoteNames.JsRem | src/app/utils/notes.ts:22 | JavaScript `%` takes the dividend's sign and agrees with the Euclidean remainder for n ≥ 0 |
| NoteNames.NameParts | src/app/utils/notes.ts:20-29 | for n ≥ 0 the name is the name of pitch class `n % 12` followed by the octave `floor(n/12) − 1` |
| NoteNames.TestValues | src/app/utils/notes.test.ts:5-19 | 12 → C0, 24 → C1, 15 → D#0, 89 → F6; with flat 15 → Eb0 and 89 → F6; `flat` defaults to false |
| NoteNames.NaturalsIgnoreFlat | src/app/utils/notes.ts:5-18 | the pitch classes 0 2 4 5 7 9 11 are named the same whatever `flat` is |
| NoteNames.BlackKeyNames | src/app/utils/notes.ts:7-16 | black keys are C# D# F# G# A# by default and Db Eb Gb Ab Bb with `flat` |
| NoteNames.OctaveUp | src/app/utils/notes.ts:21-28 | n + 12 has the same base name with the octave one higher |
| NoteNames.NegativeIsUndefined | src/app/utils/notes.ts:22-28 | a negative note that is not a whole octave reads as `undefined…` |
| NoteNames.DigitsInjective | src/app/utils/notes.ts:28 | different numbers have different digit strings |
| NoteNames.IntToStringInjective | src/app/utils/notes.ts:28 | different integers print differently |
| NoteNames.SplitName | src/app/utils/notes.ts:28 | a name splits uniquely into its letters and its octave |
| NoteNames.NamesAreDistinct | src/app/utils/notes.ts:20-29 | with the same `flat`, different notes n ≥ 0 never get the same name |
| SettingsReducer.ReduceTouchesOneField | src/settings-context.tsx:24-60 | change returns its settings; NOTE_SHIFT, THRESHOLD and VELOCITY_SCALE set only their field; CHANGE_MAPPING sets only its channel; unhandled returns the state |
| SettingsReducer.ReduceIdempotent | src/settings-context.tsx:24-60 | dispatching an action twice is dispatching it once |
| SettingsReducer.IndependentActionsCommute | src/settings-context.tsx:31-53 | actions on different fields (or different channels) commute |
| SettingsReducer.LaterActionWins | src/settings-context.tsx:29-53 | of two actions on the same field the later wins; a change overrides everything before it |
| SettingsReducer.UndefinedReducerCases | src/settings-context.tsx:62-76 | INIT returns its value whatever the state; another action is undefined on an undefined state and delegates otherwise |
| SettingsReducer.DefinedAfterInit | src/settings-context.tsx:66-76 | after a series of actions the store is defined iff it was before or one of them is INIT |
| SettingsReducer.SettingsStoreInit | src/settings-context.tsx:62-76 | before INIT settings actions are ignored; after it they apply to the loaded settings |
| ServiceStateReducer.ReduceTouchesOneField | src/state-context.tsx:30-54 | a deep-equal MIDI_UPDATE and an unknown action return the state itself; each other action replaces only its field; NO_DEVICES empties the devices |
| ServiceStateReducer.ReduceIdempotent | src/state-context.tsx:36-47 | every action is idempotent; a repeated snapshot returns the state itself |
| ServiceStateReducer.FollowTracksStatus | src/state-context.tsx:44-47 | following the host's events, the store lists no devices while their device status is "none"; non-device events leave the devices alone |
| ServiceStateReducer.StoreStartsEmpty | src/state-context.tsx:57-61 | from the initial state (no data, no ports, no devices) the store lists no devices while the events say there are none |

## Left out

- Threads, the `running` flag, locks, the mpsc plumbing beyond send success, `exec_loop`, `uninit` and `sleep` pacing. Concurrency and timing are outside the model; one loop iteration is modelled.
- The Analog SDK (`initialise`, `read_full_buffer`, `get_connected_devices_info`, `uninitialise`): foreign calls, so their results are inputs. Of the device list, only whether it was read and its length enter the model; the per-device printing is I/O.
- Service.Start and Service.MidiService.Init: the `unwrap` panic on an unreadable device list and the `assert_eq!` panic on a device-count mismatch (`lib.rs:269-272`) are reported as the errors `DevicesUnreadable` and `DeviceCountMismatch`. The model does not capture that the process aborts there.
- Service.Start and Service.Select: the `port_name(..).unwrap()` panic (`lib.rs:289`, `lib.rs:332`) is not modelled; the port list is given as its names.
- Debug builds: `get_effective_note` (`lib.rs:101-108`) panics on `u8` overflow at note 255 with the modifier on, and `iter_count += 1` (`app.rs:220`) panics after 2^32 − 1 iterations. The model has release-build wrap-around, on which `NoteEngine.EffectiveNote` and `HostApp.WrapSendsTwoSnapshots` depend.
- midir (`MidiOutput::new`, `ports`, `port_name`, `connect`, `close`): foreign calls. The port list is a sequence of names, and a connection is a log with a room budget.
- `ports[option]` past a port list that shrank panics in the source. The model reports this as the error `PortVanished`, after the options have been rebuilt.
- The prototype's sink ignores send results, so `ProtoSink` logs every message. The `VELOCITY` constant and the `poly_aftertouching` flag of `src/main.rs` are unused there, and are left out.
- The interactive port choice, Ctrl-C handling and buffer-read error logging of `src/main.rs` (165-229): I/O.
- Prototype.Dispatch: the prototype's note table is held as values (`map<int, ProtoState>`), not as in-place `Note` objects. `ProtoNote.UpdateCurrentValue` is tied to the same `Step` function.
- Service.MidiService: the key table is held as values (`map<int, KeyState>`), not as in-place `Key` objects, because frame reasoning over a map of objects was too costly to verify. `Key.UpdateMappings` and `Key.UpdateValue` are tied to the same functions (`Rebound`, `Fan`) that the service's loops use.
- HostApp: `app.rs` is written against a newer library API than the `lib.rs` modelled here (`amount_to_shift`, `set_note_config`, `get_connected_devices`, `WootingAnalogResult`). There, the service is abstract state (`ServiceView`) and each poll outcome is an input. With the `lib.rs` modelled here, `poll` wraps SDK errors in a message via `bail!`, so the `NoDevices` downcast at `app.rs:146` could never match.
- HostApp.App.UpdateConfig: a failing `update_mapping` is only logged by the host. In the abstract service view the mapping is always installed; the partial rebinding on a send failure is modelled in `Service.MidiService.UpdateMapping`.
- HostApp.Snapshot: keys are reported under their HID code as a number. The `as u8` cast is the identity on the table's codes: `generate_note_mapping` (`lib.rs:213-221`) only tries codes below 255.
- HostApp.App.SaveConfig: one clock reading serves both the throttle check and the recorded save time. The source reads `Instant::now()` again after the write (`app.rs:248-249`), so `HostApp.SavesAreSpaced` is about the times of the checks, not the ends of the writes.
- `src/native/src/settings.rs` (the host's settings with `note_config`, load and save) is not part of this model. The model assumes that its mapping inversion is that of `get_proper_mapping` in `src-tauri/src/settings.rs`.
- Config persistence, serde JSON, and the `serde_json::from_str(...).unwrap()` of `process_command`: commands carry already-parsed settings, and a write is a success flag.
- f32 arithmetic: magnitudes and velocities are `real`, so IEEE rounding is not modelled.
- Settings.ProperMappingForm: the count "result pairs = decodable source pairs" is not stated as a number. It follows from the closed form, which lists each decodable pair exactly once under its key.
- ServiceStateReducer.ReduceTouchesOneField: JavaScript reference identity is modelled as value equality plus `KeepsState`, which names the branches that return the state object itself.
- SettingsReducer: undefined fields and runtime type confusion of JavaScript are left out. `Unhandled` stands for any action type the reducers do not know.
- `src-tauri/src/main.rs`, the native bindings, the IPC wrappers, the web plumbing and the React components are outside the core.
