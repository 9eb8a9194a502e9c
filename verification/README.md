# A Dafny model of the typed ALSA sequencer event in alsa-rs

This project models the local logic of `src/seq.rs` in the `alsa` crate:

- the typed view of the C sequencer event, `snd_seq_event_t`;
- the table that ties each of the 59 event tags to one payload type;
- the guard that allows at most one `Input` per sequencer handle.

The model is written as immutable datatypes and pure functions. Each
operation has a contract, and lemmas relate the operations to each other.

Modules, one per concept:

- `Wrappers` (`wrappers.dfy`): `Option`, and `Result`, whose `Panic` arm
  names the `assert!`/`panic!` an operation aborts with.
- `EventTypes` (`event_type.dfy`): the 59 tags (`EventType`).
  - `ALL_EVENT_TYPES`.
  - The length class `get_length_flag`/`has_ext_data`.
  - The eleven `EventData::has_data` tables.
  - A one-row-per-tag reference table `ShapeOf`, proved to agree with them.
- `EventData` (`event_data.dfy`): the payload types.
  - `EvNote`, `EvCtrl`, `Addr`, `Connect`, `EvQueueControl<T>` for the four
    `T`, `EvResult` and `[u8; 12]`.
  - The well-known addresses.
  - `Narrowed`, a reference definition of what a payload looks like after
    the C record's narrower fields have truncated it.
- `Events` (`event.dfy`): the `Event` triple.
  - It holds the C record, the tag and an optional `Cow` buffer.
  - `new`, `new_ext`, `into_owned`, `get_data`, `get_ext`, `ensure_buf`.
  - The header setters and getters.
  - Scheduling and priority as bit updates of the `bv8` flags byte.
  - The type invariant `Valid`.
- `EventProperties` (`event_props.dfy`): lemmas that relate several
  operations, such as round trips, idempotence and the one-accessor rule.
  It also checks the local half of the loopback and sysex-decode tests.
- `Sequencer` (`sequencer.dfy`): the tag check of `control_queue` and the
  `Input` checkout guard. The guard has a functional form, a trace
  semantics with its invariant, and a small class with a mutable flag.

Modelling choices:

- Tags are abstract constructors; their numeric C values are not modelled.
- The 12-byte data union is a datatype with one arm per interpretation the
  crate writes, plus `Blank`. `Blank` is the zeroed union, and it reads as
  zero in every interpretation.
- The timestamp union is two 32-bit words. The tick shares storage with the
  seconds word, as in the C layout, so `schedule_tick` leaves the
  nanoseconds word alone.
- The flags byte is a `bv8`. Queue ids, address bytes and the other byte
  fields are `int`s in `0..256`. Every `as u8` / `as c_uint` cast of a wider
  value is an explicit `%`.
- `debug_assert!(D::has_data(t))` in `Event::new` is modelled as it behaves
  in a debug build, as the `PayloadShapeMismatch` panic. A release build
  skips the check and writes the payload into the union anyway.

## Model

| member | source | states |
|---|---|---|
| EventTypes.AllEventTypesEnumerates | src/seq.rs:1055-1119 | `ALL_EVENT_TYPES` has 59 entries, lists every tag, and lists none twice |
| EventTypes.LengthFlag | src/seq.rs:601-612 | the length flag is FIXED, VARIABLE or VARUSR and lies within the length mask bits 2..3 |
| EventTypes.LengthFlagClassification | src/seq.rs:601-616 | VARIABLE exactly for `Sysex`/`Bounce`, VARUSR exactly for `UsrVar0`–`UsrVar4`, FIXED otherwise; `has_ext_data` holds exactly for those seven tags |
| EventTypes.VariableTagCount | src/seq.rs:601-616 | exactly seven tags carry variable-length data |
| EventTypes.EmptyHasData | src/seq.rs:761-769 | `()::has_data` accepts a tag exactly when the one-row-per-tag table assigns it type `()` |
| EventTypes.RawHasData | src/seq.rs:775-791 | `[u8; 12]::has_data` accepts a tag exactly when the one-row-per-tag table assigns it type `[u8; 12]` |
| EventTypes.NoteHasData | src/seq.rs:814-822 | `EvNote::has_data` accepts a tag exactly when the one-row-per-tag table assigns it type `EvNote` |
| EventTypes.CtrlHasData | src/seq.rs:845-861 | `EvCtrl::has_data` accepts a tag exactly when the one-row-per-tag table assigns it type `EvCtrl` |
| EventTypes.AddrHasData | src/seq.rs:875-885 | `Addr::has_data` accepts a tag exactly when the one-row-per-tag table assigns it type `Addr` |
| EventTypes.ConnectHasData | src/seq.rs:905-911 | `Connect::has_data` accepts a tag exactly when the one-row-per-tag table assigns it type `Connect` |
| EventTypes.QueueHasData | src/seq.rs:941-950 | `EvQueueControl<()>::has_data` accepts a tag exactly when the one-row-per-tag table assigns it type `EvQueueControl<()>` |
| EventTypes.QueueValueHasData | src/seq.rs:963-968 | `EvQueueControl<i32>::has_data` accepts a tag exactly when the one-row-per-tag table assigns it type `EvQueueControl<i32>` |
| EventTypes.QueuePosHasData | src/seq.rs:982-989 | `EvQueueControl<u32>::has_data` accepts a tag exactly when the one-row-per-tag table assigns it type `EvQueueControl<u32>` |
| EventTypes.QueueTimeHasData | src/seq.rs:1003-1008 | `EvQueueControl<Duration>::has_data` accepts a tag exactly when the one-row-per-tag table assigns it type `EvQueueControl<Duration>` |
| EventTypes.ResultHasData | src/seq.rs:1034-1040 | `EvResult::has_data` accepts a tag exactly when the one-row-per-tag table assigns it type `EvResult` |
| EventTypes.HasExtData | src/seq.rs:614-616 | `has_ext_data` holds exactly for the seven tags `Sysex`, `Bounce` and `UsrVar0`–`UsrVar4` |
| EventTypes.ShapeTableAgrees | src/seq.rs:760-1051 | every `has_data` table accepts exactly the tags whose row in the one-row-per-tag table names its type, and `has_ext_data` holds exactly for the rows naming no type |
| EventTypes.PartitionOfTags | src/seq.rs:1302-1321 | for every tag, exactly one of the twelve classifications (eleven `has_data` plus `has_ext_data`) holds |
| EventTypes.ExactlyOneShape | src/seq.rs:1302-1321 | a variable-length tag is accepted by no payload type; a fixed tag by one, and by no two |
| EventData.DurationNew | src/seq.rs:1009-1014 | `Duration::new` keeps the total time and is the identity for a sub-second nanosecond part |
| EventData.SystemTimer | src/seq.rs:503 | the system timer address is client 0, port 0, and fits the one-byte C fields |
| EventData.SystemAnnounce | src/seq.rs:504 | the system announce address is client 0, port 1, and fits the one-byte C fields |
| EventData.Broadcast | src/seq.rs:505 | the broadcast address is (255, 255) and fits the one-byte C fields |
| EventData.NarrowedFixedPoint | src/seq.rs:886-1021 | the narrowing the C fields apply (`as c_uchar` on addresses and queue ids, `as c_uint` on seconds) changes a payload exactly when one of those fields is out of range, and is idempotent |
| Events.WriteData | src/seq.rs:774-1051 | each `set_data` leaves the union in its own type's interpretation, and the matching `get_data` reads back the payload narrowed to the record's field widths |
| Events.ReadData | src/seq.rs:753-758 | `D::get_data` always yields a value of type `D` |
| Events.New | src/seq.rs:575-583 | panics on a variable-length tag and, in a debug build, on a payload type that does not accept the tag; otherwise the event has the tag, FIXED length bits, no buffer, satisfies the invariant, and `get_data` returns the narrowed payload |
| Events.NewExt | src/seq.rs:586-592 | panics exactly on a fixed-length tag; otherwise the event has the tag and its length class, satisfies the invariant, and `get_ext` returns exactly the given bytes, borrowed exactly when they were given borrowed |
| Events.IntoOwned | src/seq.rs:594-599 | the result borrows nothing and has the same record, tag, `get_ext` and `get_data` answers, keeps the invariant, and an event that borrows nothing is returned unchanged |
| Events.GetData | src/seq.rs:651-653 | `get_data::<D>()` is `Some` exactly when `D::has_data(get_type())`, and then of type `D` |
| Events.GetExt | src/seq.rs:655-667 | `get_ext()` is `None` exactly for fixed tags, panics exactly for a variable tag without a buffer, otherwise returns the buffer; a valid event never panics |
| Events.EnsureBuf | src/seq.rs:633-646 | a no-op for fixed tags; for a variable tag it panics exactly when the buffer is missing, otherwise sets only the length field to the buffer length (mod 2^32); valid events never panic and stay valid |
| Events.OutputRecord | src/seq.rs:149-162 | `event_output`, `event_output_buffer`, `event_output_direct` and `MidiEvent::decode` hand the C library the record after `ensure_buf`: possible for every valid event, the length field describes the buffer, and fixed events go out unchanged |
| Events.GetType | src/seq.rs:649 | for a valid event, the tag returned fixes the length bits in the flags and whether a buffer is attached |
| Events.GetSource | src/seq.rs:679 | the source address widened to `i32` always fits a byte per field, and narrowing it again gives back the record's bytes |
| Events.GetDest | src/seq.rs:680 | the destination widened to `i32` always fits a byte per field, and narrowing it again gives back the record's bytes |
| Events.GetQueue | src/seq.rs:682 | the queue widened to `i32` lies in 0..255, and narrowing it again gives back the record's byte |
| EventProperties.GettersInvertSetters | src/seq.rs:674-682 | writing back what `get_source`, `get_dest`, `get_tag`, `get_queue` or `get_priority` returned, with the matching setter, leaves the event unchanged |
| Events.SetSubs | src/seq.rs:669-672 | the destination becomes (254 subscribers, 253 unknown) and nothing else changes |
| Events.SetSource | src/seq.rs:674 | only the source port changes, to the low byte of the argument; the source client stays |
| Events.SetDest | src/seq.rs:675 | the destination becomes the address truncated to bytes, exactly the address when it fits, and nothing else changes |
| Events.SetTag | src/seq.rs:676 | the tag byte is set and nothing else changes |
| Events.SetQueue | src/seq.rs:677 | the queue becomes the low byte of the argument and nothing else changes |
| Events.SetDirect | src/seq.rs:701 | the queue becomes 253 (direct) and nothing else changes |
| Events.GetTime | src/seq.rs:705-711 | a real-time stamp is returned exactly when the stamp bit says real time, and it keeps the total time of the record's (seconds, nanoseconds) words, as `Duration::new` does |
| Events.GetTick | src/seq.rs:713-719 | a tick is returned exactly when `get_time` returns none |
| Events.GetRelative | src/seq.rs:703 | the mode bit read back: rescheduling with the current stamp kind and the reported mode leaves the flags unchanged |
| Events.ScheduleReal | src/seq.rs:684-691 | sets the relative flag and queue, `get_time` returns the duration (seconds mod 2^32, exact below 2^32), `get_tick` is none; every flag bit other than the two scheduling bits, so priority and length class, is unchanged, and only flags, queue and time change |
| Events.ScheduleTick | src/seq.rs:693-699 | sets the relative flag and queue, `get_tick` returns the tick, `get_time` is none; the nanoseconds word of the timestamp union is left as it was; every flag bit other than the two scheduling bits is unchanged, and only flags, queue and time change |
| Events.SetPriority | src/seq.rs:721-727 | `get_priority` returns the new value; every other flag bit, and so the scheduling answers, is unchanged |
| EventProperties.EnsureBufIdempotent | src/seq.rs:635-646 | running `ensure_buf` twice is the same as running it once |
| EventProperties.IntoOwnedIdempotent | src/seq.rs:594-599 | `into_owned` twice is `into_owned` once, and the bytes are those of the original event |
| EventProperties.ExactlyOneAccessor | src/seq.rs:651-667 | for every event `get_ext` does not panic on (a variable tag has a buffer), `get_ext` yields bytes exactly when no `get_data::<D>` yields a payload, and no two payload types yield one |
| EventProperties.NewAnswersOnlyItsShape | src/seq.rs:575-583 | an event from `new(t, &data)` answers `get_data` for the type of `data` and no other |
| EventProperties.NewRoundTrip | src/seq.rs:575-583 | `get_data` returns the payload given to `new` unchanged when its fields fit the record (always for notes, controls, results and raw blobs) |
| EventProperties.NewHeaderIsZero | src/seq.rs:577-579 | a new event has tick 0, absolute mode, normal priority, queue 0, tag 0, and addresses (0, 0) |
| EventProperties.NewExtRoundTrip | src/seq.rs:586-599 | the bytes given to `new_ext` come back from `get_ext` after `into_owned`, and `ensure_buf` records their length |
| EventProperties.SetPriorityLastWins | src/seq.rs:722-727 | the last `set_priority` wins, and setting the priority `get_priority` reports changes nothing |
| EventProperties.RescheduleOverrides | src/seq.rs:684-699 | scheduling by tick after real time (or the reverse) leaves only the later stamp visible, with its mode and queue, and keeps priority and length bits |
| EventProperties.LoopbackPreparation | src/seq.rs:1252-1259 | the note event of the loopback test, after `set_subs`, `set_direct` and `set_source`, still has tag `Noteon` and the same note, is addressed to subscribers on the direct queue, and goes out unchanged |
| EventProperties.SysexDecodePreparation | src/seq.rs:1282-1287 | a sysex event over the 9 borrowed test bytes returns them from `get_ext`, and the normalisation before decoding records length 9 |
| Sequencer.ControlQueueCheck | src/seq.rs:143-144 | `control_queue` proceeds exactly for tags accepted by `EvQueueControl<()>`, `<i32>` or `<u32>` and panics otherwise |
| Sequencer.ControlQueueTags | src/seq.rs:144 | the accepted tags are exactly those whose row names one of those three types; `SetposTime` is refused |
| Sequencer.CheckHasInput | src/seq.rs:58-60 | panics exactly when an `Input` is alive |
| Sequencer.TakeInput | src/seq.rs:203-208 | `Input::new` succeeds exactly when no `Input` is alive, and then marks one as alive |
| Sequencer.DropInput | src/seq.rs:199-201 | dropping an `Input` clears the flag, after which `input()` succeeds |
| Sequencer.SecondInputPanics | src/seq.rs:1291-1300 | a second `input()` while the first is alive panics; after dropping the first, `input()` succeeds |
| Sequencer.Run | src/seq.rs:183-208 | along any program that only drops `Input`s it holds, at most one `Input` is ever alive and the flag says whether one is; the only panic is the guard's |
| Sequencer.Seq.Open | src/seq.rs:74-75 | a freshly opened handle has no `Input` alive |
| Sequencer.Seq.Input | src/seq.rs:185-187 | on the mutable handle, `input()` succeeds exactly when no `Input` was alive and then leaves the flag set; a panic leaves the handle unchanged |
| Sequencer.Seq.Release | src/seq.rs:199-201 | dropping the `Input` leaves the flag cleared |
| Sequencer.RunPanicsIffNested | src/seq.rs:190-208 | such a program panics exactly when it calls `input()` while holding an `Input` |

## Left out

- `MidiEvent` (src/seq.rs:1156-1198) is not modelled. Running status, byte-stream encoding and decoding, and buffer resizing all happen inside alsa-lib's `snd_midi_event_*` functions. The local code only forwards, calls `ensure_buf` before `decode` (covered by `OutputRecord`), and returns no event when the encoded type is `NONE`. Failures of `snd_midi_event_encode`/`decode` are negative return codes passed through `acheck!`.
- `Event::extract` reinterprets raw pointers into a record filled by the C library, and that is not modelled. The numeric tag conversion, the buffer pointer, and reading the borrowed slice are foreign memory. Events it yields are assumed to satisfy `Valid`.
- `Input::event_input`, `event_input_pending`, `set_input_buffer_size` and `InputStream::poll_next` are not modelled. They depend on foreign pending counts, a blocking read and the futures API. The rule that an event borrowing the input buffer blocks further reads is enforced by Rust lifetimes, not by local logic.
- `Seq::open`'s `snd_seq_open` call is not modelled; only the `Cell::new(false)` flag it creates is (`Opened`, `Seq.Open`).
- The `Seq` methods that only forward to `snd_seq_*` are not modelled: client settings, ports, subscriptions, queues, draining and polling. Neither are the `ClientInfo`, `PortInfo`, `PortSubscribe` and `QueueTempo` accessors, or `ClientIter`/`PortIter`. All of them are thin wrappers over foreign calls.
- The `PortCap`/`PortType` bit flags are left out, because they are constant definitions only.
- `Clone`, `Debug` and the derived `Ord`/`Hash` of the payload types are left out. Dafny datatypes are values, so cloning is the identity.
- Events.OutputRecord: does not cover `Seq::control_queue` (src/seq.rs:143-147), which passes its optional template event to `snd_seq_control_queue` without `ensure_buf`; that call is foreign, and only its tag check (`ControlQueueCheck`) is modelled.
- The numeric `_type` byte and the pointer half of the variable-length union are not modelled. Only the tag and the length field are.
- Events.ReadData: a union arm written for another payload type reads as zero here. In C it would reinterpret the bytes. Only events that break `Valid` can hit this, and a release build's unchecked `new` is one way to make such an event.
- Events.New: models a debug build. A release build skips the payload-type check.
