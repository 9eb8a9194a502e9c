/** `Event`: a fixed-size C event record, the tag it was built for, and an
    optional variable-length buffer that is either owned by the event or
    borrowed from someone else's memory.

    The C record is modelled field by field. Its 12-byte data union becomes a
    datatype with one arm per interpretation the Rust code writes (plus
    `Blank`, the all-zero union, which reads as zero in every
    interpretation); the numeric `_type` byte and the buffer pointer of the
    variable-length arm are not modelled, only the buffer length is. */
module Events {
  import opened Wrappers
  import opened EventTypes
  import opened EventData

  // ---------------------------------------------------------------------
  // Bits of the flags byte (bits 2..3, the length class, are in EventTypes)
  // ---------------------------------------------------------------------

  const TIME_STAMP_MASK: bv8 := 1 << 0
  const TIME_MODE_MASK: bv8 := 1 << 1
  const TIME_STAMP_TICK: bv8 := 0 << 0
  const TIME_STAMP_REAL: bv8 := 1 << 0
  const TIME_MODE_ABS: bv8 := 0 << 1
  const TIME_MODE_REL: bv8 := 1 << 1
  const PRIORITY_HIGH: bv8 := 1 << 4

  /** The bits the scheduling operations own. */
  const SCHEDULE_BITS: bv8 := TIME_STAMP_MASK | TIME_MODE_MASK

  // ---------------------------------------------------------------------
  // The C record
  // ---------------------------------------------------------------------

  datatype RawAddr = RawAddr(client: U8, port: U8)

  /** The timestamp union: a tick count shares its storage with the seconds
      of the real-time view. */
  datatype RawTime = RawTime(sec: U32, nsec: U32)

  /** The auxiliary parameter union of the queue-control view. */
  datatype QueueParam =
    | ParamBlank
    | ParamValue(value: I32)
    | ParamPosition(position: U32)
    | ParamTime(sec: U32, nsec: U32)

  /** The data union of the record, by the interpretation last written. */
  datatype DataUnion =
    | Blank
    | Raw8(d: Bytes12)
    | NoteData(channel: U8, note: U8, velocity: U8, offVelocity: U8, duration: U32)
    | CtrlData(channel: U8, param: U32, value: I32)
    | AddrData(addr: RawAddr)
    | ConnectData(sender: RawAddr, dest: RawAddr)
    | QueueData(queue: U8, qparam: QueueParam)
    | ResultData(event: I32, result: I32)
    | ExtData(len: U32)

  datatype Record = Record(
    flags: bv8,
    tag: U8,
    queue: U8,
    time: RawTime,
    source: RawAddr,
    dest: RawAddr,
    data: DataUnion)

  /** `mem::zeroed()`. */
  const ZeroedRecord: Record :=
    Record(0, 0, 0, RawTime(0, 0), RawAddr(0, 0), RawAddr(0, 0), Blank)

  /** `Cow<[u8]>`: the variable-length buffer, owned or borrowed. */
  datatype Cow = Owned(bytes: seq<U8>) | Borrowed(bytes: seq<U8>)

  datatype Event = Event(record: Record, eventType: EventType, ext: Option<Cow>)

  // ---------------------------------------------------------------------
  // Reading and writing the data union (the `EventData` impls)
  // ---------------------------------------------------------------------

  /** The data union reads as an interpretation of shape `s` (or is blank). */
  predicate Fits(s: Shape, d: DataUnion) {
    d.Blank? ||
    match s
    case EmptyShape => false
    case RawShape => d.Raw8?
    case NoteShape => d.NoteData?
    case CtrlShape => d.CtrlData?
    case AddrShape => d.AddrData?
    case ConnectShape => d.ConnectData?
    case QueueShape => d.QueueData? && d.qparam.ParamBlank?
    case QueueValueShape => d.QueueData? && (d.qparam.ParamBlank? || d.qparam.ParamValue?)
    case QueuePosShape => d.QueueData? && (d.qparam.ParamBlank? || d.qparam.ParamPosition?)
    case QueueTimeShape => d.QueueData? && (d.qparam.ParamBlank? || d.qparam.ParamTime?)
    case ResultShape => d.ResultData?
  }

  function ToRawAddr(a: Addr): RawAddr {
    RawAddr(Trunc8(a.client), Trunc8(a.port))
  }

  function FromRawAddr(a: RawAddr): Addr {
    Addr(a.client, a.port)
  }

  /** `p.set_data(&mut z)` on a zeroed record: the union as `p` leaves it.
      Reading it back with `p`'s own shape gives `p` narrowed to the record's
      field widths. */
  function WriteData(p: Payload): (r: DataUnion)
    ensures Fits(ShapeOfPayload(p), r)
    ensures ReadData(ShapeOfPayload(p), r) == Narrowed(p)
  {
    match p
    case EmptyPayload => Blank
    case RawPayload(d) => Raw8(d)
    case NotePayload(n) => NoteData(n.channel, n.note, n.velocity, n.offVelocity, n.duration)
    case CtrlPayload(c) => CtrlData(c.channel, c.param, c.value)
    case AddrPayload(a) => AddrData(ToRawAddr(a))
    case ConnectPayload(c) => ConnectData(ToRawAddr(c.sender), ToRawAddr(c.dest))
    case QueuePayload(q) =>
      var param :=
        match q.value
        case NoValue => ParamBlank
        case Value(v) => ParamValue(v)
        case Position(pos) => ParamPosition(pos)
        case Time(d) => ParamTime(Trunc32(d.secs), d.nanos);
      QueueData(Trunc8(q.queue), param)
    case ResultPayload(res) => ResultData(res.event, res.result)
  }

  /** `D::get_data(ev)` for the type `D` named by `s`. A blank union reads as
      the all-zero value of every shape; an arm written for another shape
      never occurs in a valid event, and reads as zero as well. */
  function ReadData(s: Shape, d: DataUnion): (r: Payload)
    ensures ShapeOfPayload(r) == s
  {
    match s
    case EmptyShape => EmptyPayload
    case RawShape => RawPayload(if d.Raw8? then d.d else [0, 0, 0, 0, 0, 0, 0, 0, 0, 0, 0, 0])
    case NoteShape =>
      NotePayload(
        if d.NoteData? then EvNote(d.channel, d.note, d.velocity, d.offVelocity, d.duration)
        else EvNote(0, 0, 0, 0, 0))
    case CtrlShape =>
      CtrlPayload(if d.CtrlData? then EvCtrl(d.channel, d.param, d.value) else EvCtrl(0, 0, 0))
    case AddrShape => AddrPayload(if d.AddrData? then FromRawAddr(d.addr) else Addr(0, 0))
    case ConnectShape =>
      ConnectPayload(
        if d.ConnectData? then Connect(FromRawAddr(d.sender), FromRawAddr(d.dest))
        else Connect(Addr(0, 0), Addr(0, 0)))
    case QueueShape => QueuePayload(EvQueueControl(QueueIdOf(d), NoValue))
    case QueueValueShape =>
      var v := if d.QueueData? && d.qparam.ParamValue? then d.qparam.value else 0;
      QueuePayload(EvQueueControl(QueueIdOf(d), Value(v)))
    case QueuePosShape =>
      var pos := if d.QueueData? && d.qparam.ParamPosition? then d.qparam.position else 0;
      QueuePayload(EvQueueControl(QueueIdOf(d), Position(pos)))
    case QueueTimeShape =>
      var t := if d.QueueData? && d.qparam.ParamTime? then DurationNew(d.qparam.sec, d.qparam.nsec) else Duration(0, 0);
      QueuePayload(EvQueueControl(QueueIdOf(d), Time(t)))
    case ResultShape =>
      ResultPayload(if d.ResultData? then EvResult(d.event, d.result) else EvResult(0, 0))
  }

  function QueueIdOf(d: DataUnion): U8 {
    if d.QueueData? then d.queue else 0
  }

  /** The length field of the variable-length view. */
  function ExtLen(d: DataUnion): U32 {
    if d.ExtData? then d.len else 0
  }

  // ---------------------------------------------------------------------
  // The type invariant
  // ---------------------------------------------------------------------

  /** The invariant `new`/`new_ext` establish and every operation here
      preserves: the length class in the flags matches the tag, a buffer is
      attached exactly when the tag carries variable-length data, and the
      data union holds the tag's view. Events from `extract` are assumed to
      satisfy it. */
  predicate Valid(e: Event) {
    && e.record.flags & LENGTH_MASK == LengthFlag(e.eventType)
    && (HasExtData(e.eventType) <==> e.ext.Some?)
    && match ShapeOf(e.eventType)
       case Some(s) => Fits(s, e.record.data)
       case None => e.record.data.Blank? || e.record.data.ExtData?
  }

  /** The event still refers to memory it does not own. */
  predicate Borrows(e: Event) {
    e.ext.Some? && e.ext.value.Borrowed?
  }

  // ---------------------------------------------------------------------
  // Construction
  // ---------------------------------------------------------------------

  /** `Event::new(t, &data)`: refuses a variable-length tag, and (in a debug
      build) a payload whose type does not accept the tag. */
  function New(t: EventType, p: Payload): (r: Result<Event>)
    ensures r == Panic(MustNotCarryVariableData) <==> HasExtData(t)
    ensures r == Panic(PayloadShapeMismatch) <==> !HasExtData(t) && !HasData(ShapeOfPayload(p), t)
    ensures r.Ok? <==> !HasExtData(t) && HasData(ShapeOfPayload(p), t)
    ensures r.Ok? ==>
      && GetType(r.value) == t
      && Valid(r.value)
      && r.value.record.flags & LENGTH_MASK == LENGTH_FIXED
      && r.value.ext == Option.None
      && GetData(r.value, ShapeOfPayload(p)) == Some(Narrowed(p))
      && GetExt(r.value) == Ok(Option.None)
  {
    if HasExtData(t) then Panic(MustNotCarryVariableData)
    else if !HasData(ShapeOfPayload(p), t) then Panic(PayloadShapeMismatch)
    else
      var z := ZeroedRecord.(flags := ZeroedRecord.flags | LengthFlag(t));
      Ok(Event(z.(data := WriteData(p)), t, Option.None))
  }

  /** `Event::new_ext(t, data)`: refuses a fixed-length tag; otherwise the
      event carries exactly the given bytes, owned or borrowed as given. */
  function NewExt(t: EventType, data: Cow): (r: Result<Event>)
    ensures r.Ok? <==> HasExtData(t)
    ensures r.Panic? ==> r.reason == MustCarryVariableData
    ensures r.Ok? ==>
      && GetType(r.value) == t
      && Valid(r.value)
      && r.value.record.flags & LENGTH_MASK == LengthFlag(t) != LENGTH_FIXED
      && GetExt(r.value) == Ok(Some(data.bytes))
      && (Borrows(r.value) <==> data.Borrowed?)
  {
    if !HasExtData(t) then Panic(MustCarryVariableData)
    else
      var z := ZeroedRecord.(flags := ZeroedRecord.flags | LengthFlag(t));
      Ok(Event(z, t, Some(data)))
  }

  /** `Event::into_owned`: copies a borrowed buffer into the event. Nothing
      observable changes, and the result borrows nothing. */
  function IntoOwned(e: Event): (r: Event)
    ensures !Borrows(r)
    ensures GetType(r) == GetType(e)
    ensures r.record == e.record
    ensures GetExt(r) == GetExt(e)
    ensures forall s: Shape :: GetData(r, s) == GetData(e, s)
    ensures Valid(e) ==> Valid(r)
    ensures !Borrows(e) ==> r == e
  {
    match e.ext
    case None => e
    case Some(c) => e.(ext := Some(Owned(c.bytes)))
  }

  // ---------------------------------------------------------------------
  // Accessors
  // ---------------------------------------------------------------------

  /** `get_type`: the tag, which fixes the length class of a valid event. */
  function GetType(e: Event): (r: EventType)
    ensures Valid(e) ==> e.record.flags & LENGTH_MASK == LengthFlag(r)
    ensures Valid(e) ==> (HasExtData(r) <==> e.ext.Some?)
  {
    e.eventType
  }

  /** `get_data::<D>()` for the type `D` named by `s`: a payload exactly when
      `D` accepts the tag, and then one of type `D`. */
  function GetData(e: Event, s: Shape): (r: Option<Payload>)
    ensures r.Some? <==> HasData(s, e.eventType)
    ensures r.Some? ==> ShapeOfPayload(r.value) == s
  {
    if HasData(s, e.eventType) then Some(ReadData(s, e.record.data)) else Option.None
  }

  /** `get_ext()`: the buffer exactly when the tag carries variable-length
      data; a variable-length tag without a buffer is a panic. */
  function GetExt(e: Event): (r: Result<Option<seq<U8>>>)
    ensures r == Ok(Option.None) <==> !HasExtData(e.eventType)
    ensures r.Panic? <==> HasExtData(e.eventType) && e.ext.None?
    ensures r.Panic? ==> r.reason == VariableDataMissing
    ensures r.Ok? && r.value.Some? ==> e.ext.Some? && r.value.value == e.ext.value.bytes
    ensures Valid(e) ==> r.Ok?
  {
    if HasExtData(e.eventType) then
      match e.ext
      case Some(c) => Ok(Some(c.bytes))
      case None => Panic(VariableDataMissing)
    else Ok(Option.None)
  }

  // ---------------------------------------------------------------------
  // Normalisation before output
  // ---------------------------------------------------------------------

  /** `ensure_buf`: for a variable-length tag, point the record's length
      field at the current buffer (the length is truncated to 32 bits); for a
      fixed tag, nothing. A variable-length tag without a buffer panics. */
  function EnsureBuf(e: Event): (r: Result<Event>)
    ensures !HasExtData(e.eventType) ==> r == Ok(e)
    ensures r.Panic? <==> HasExtData(e.eventType) && e.ext.None?
    ensures r.Panic? ==> r.reason == VariableDataMissing
    ensures r.Ok? && HasExtData(e.eventType) ==>
      && ExtLen(r.value.record.data) == |e.ext.value.bytes| % 0x1_0000_0000
      && r.value.record.data.ExtData?
      && r.value == e.(record := e.record.(data := r.value.record.data))
    ensures Valid(e) ==> r.Ok? && Valid(r.value)
  {
    if !HasExtData(e.eventType) then Ok(e)
    else
      match e.ext
      case None => Panic(VariableDataMissing)
      case Some(c) => Ok(e.(record := e.record.(data := ExtData(|c.bytes| % 0x1_0000_0000))))
  }

  /** The record that `event_output`, `event_output_buffer`,
      `event_output_direct` and `MidiEvent::decode` hand to the C library:
      the event after `ensure_buf`. For a valid event that is always possible,
      and the length field then describes the attached buffer. */
  function OutputRecord(e: Event): (r: Result<Record>)
    ensures r.Ok? <==> EnsureBuf(e).Ok?
    ensures Valid(e) ==> r.Ok?
    ensures r.Ok? && HasExtData(e.eventType) ==> ExtLen(r.value.data) == |e.ext.value.bytes| % 0x1_0000_0000
    ensures r.Ok? && !HasExtData(e.eventType) ==> r.value == e.record
  {
    var n :- EnsureBuf(e);
    Ok(n.record)
  }

  // ---------------------------------------------------------------------
  // Header setters and getters
  // ---------------------------------------------------------------------

  /** `get_source`: the source address widened back to `i32`. Narrowing it
      again with `as c_uchar` recovers the C bytes. */
  function GetSource(e: Event): (r: Addr)
    ensures AddrFitsRecord(r)
    ensures ToRawAddr(r) == e.record.source
  {
    FromRawAddr(e.record.source)
  }

  /** `get_dest`: the destination widened back to `i32`. Narrowing it again
      with `as c_uchar` recovers the C bytes. */
  function GetDest(e: Event): (r: Addr)
    ensures AddrFitsRecord(r)
    ensures ToRawAddr(r) == e.record.dest
  {
    FromRawAddr(e.record.dest)
  }

  function GetTag(e: Event): U8 {
    e.record.tag
  }

  /** `get_queue`: the queue byte widened to `i32`, so never negative nor
      above 255, and narrowing it again recovers the byte. */
  function GetQueue(e: Event): (r: I32)
    ensures 0 <= r < 256
    ensures Trunc8(r) == e.record.queue
  {
    e.record.queue
  }

  /** `set_subs`: address the event to whoever subscribes to its source. */
  function SetSubs(e: Event): (r: Event)
    ensures GetDest(r) == Addr(ADDRESS_SUBSCRIBERS, ADDRESS_UNKNOWN)
    ensures r == e.(record := e.record.(dest := r.record.dest))
    ensures Valid(e) ==> Valid(r)
  {
    e.(record := e.record.(dest := RawAddr(ADDRESS_SUBSCRIBERS, ADDRESS_UNKNOWN)))
  }

  /** `set_source(p)`: only the source port changes; the source client is
      left to the sequencer. */
  function SetSource(e: Event, p: I32): (r: Event)
    ensures GetSource(r) == Addr(GetSource(e).client, p % 256)
    ensures r == e.(record := e.record.(source := r.record.source))
    ensures Valid(e) ==> Valid(r)
  {
    e.(record := e.record.(source := e.record.source.(port := Trunc8(p))))
  }

  function SetDest(e: Event, d: Addr): (r: Event)
    ensures GetDest(r) == TruncAddr(d)
    ensures AddrFitsRecord(d) ==> GetDest(r) == d
    ensures r == e.(record := e.record.(dest := r.record.dest))
    ensures Valid(e) ==> Valid(r)
  {
    e.(record := e.record.(dest := ToRawAddr(d)))
  }

  function SetTag(e: Event, t: U8): (r: Event)
    ensures GetTag(r) == t
    ensures r == e.(record := e.record.(tag := r.record.tag))
    ensures Valid(e) ==> Valid(r)
  {
    e.(record := e.record.(tag := t))
  }

  function SetQueue(e: Event, q: I32): (r: Event)
    ensures GetQueue(r) == q % 256
    ensures r == e.(record := e.record.(queue := r.record.queue))
    ensures Valid(e) ==> Valid(r)
  {
    e.(record := e.record.(queue := Trunc8(q)))
  }

  /** `set_direct`: deliver without queueing. */
  function SetDirect(e: Event): (r: Event)
    ensures GetQueue(r) == QUEUE_DIRECT
    ensures r == e.(record := e.record.(queue := r.record.queue))
    ensures Valid(e) ==> Valid(r)
  {
    e.(record := e.record.(queue := QUEUE_DIRECT))
  }

  // ---------------------------------------------------------------------
  // Scheduling and priority
  // ---------------------------------------------------------------------

  /** `get_relative`: the time mode bit. Rescheduling with the current stamp
      kind and the reported mode leaves the flags as they are. */
  function GetRelative(e: Event): (r: bool)
    ensures ScheduleFlags(e.record.flags, e.record.flags & TIME_STAMP_MASK, r) == e.record.flags
  {
    e.record.flags & TIME_MODE_REL != 0
  }

  /** `get_time`: the real-time stamp, present exactly when the stamp bit
      says real time. */
  function GetTime(e: Event): (r: Option<Duration>)
    ensures r.Some? <==> e.record.flags & TIME_STAMP_REAL != 0
    ensures r.Some? ==> r.value.secs * NANOS_PER_SEC + r.value.nanos
                        == e.record.time.sec * NANOS_PER_SEC + e.record.time.nsec
  {
    if e.record.flags & TIME_STAMP_REAL != 0 then Some(DurationNew(e.record.time.sec, e.record.time.nsec))
    else Option.None
  }

  /** `get_tick`: the tick stamp, present exactly when `get_time` is absent. */
  function GetTick(e: Event): (r: Option<U32>)
    ensures r.Some? <==> GetTime(e).None?
  {
    if e.record.flags & TIME_STAMP_REAL == 0 then Some(e.record.time.sec) else Option.None
  }

  function GetPriority(e: Event): bool {
    e.record.flags & PRIORITY_HIGH != 0
  }

  /** The flags with both scheduling bits replaced: stamp `stamp`, mode
      relative or absolute. */
  function ScheduleFlags(flags: bv8, stamp: bv8, relative: bool): bv8 {
    (flags & !SCHEDULE_BITS) | stamp | (if relative then TIME_MODE_REL else TIME_MODE_ABS)
  }

  /** `schedule_real(queue, relative, rtime)`. The seconds are truncated to
      32 bits on the way into the record. */
  function ScheduleReal(e: Event, queue: I32, relative: bool, rtime: Duration): (r: Event)
    ensures GetRelative(r) == relative
    ensures GetQueue(r) == queue % 256
    ensures GetTime(r) == Some(Duration(rtime.secs % 0x1_0000_0000, rtime.nanos))
    ensures rtime.secs < 0x1_0000_0000 ==> GetTime(r) == Some(rtime)
    ensures GetTick(r) == Option.None
    ensures r.record.flags & !SCHEDULE_BITS == e.record.flags & !SCHEDULE_BITS
    ensures GetPriority(r) == GetPriority(e)
    ensures r == e.(record := e.record.(flags := r.record.flags, queue := r.record.queue, time := r.record.time))
    ensures Valid(e) ==> Valid(r)
  {
    var flags := ScheduleFlags(e.record.flags, TIME_STAMP_REAL, relative);
    e.(record := e.record.(flags := flags, queue := Trunc8(queue), time := RawTime(Trunc32(rtime.secs), rtime.nanos)))
  }

  /** `schedule_tick(queue, relative, ttime)`. Only the tick (the seconds
      word of the timestamp union) is written. */
  function ScheduleTick(e: Event, queue: I32, relative: bool, ttime: U32): (r: Event)
    ensures GetRelative(r) == relative
    ensures GetQueue(r) == queue % 256
    ensures GetTick(r) == Some(ttime)
    ensures GetTime(r) == Option.None
    ensures r.record.flags & !SCHEDULE_BITS == e.record.flags & !SCHEDULE_BITS
    ensures GetPriority(r) == GetPriority(e)
    ensures r.record.time.nsec == e.record.time.nsec
    ensures r == e.(record := e.record.(flags := r.record.flags, queue := r.record.queue, time := r.record.time))
    ensures Valid(e) ==> Valid(r)
  {
    var flags := ScheduleFlags(e.record.flags, TIME_STAMP_TICK, relative);
    e.(record := e.record.(flags := flags, queue := Trunc8(queue), time := e.record.time.(sec := ttime)))
  }

  /** `set_priority(b)`: only the priority bit changes. */
  function SetPriority(e: Event, isHighPrio: bool): (r: Event)
    ensures GetPriority(r) == isHighPrio
    ensures r.record.flags & !PRIORITY_HIGH == e.record.flags & !PRIORITY_HIGH
    ensures GetRelative(r) == GetRelative(e) && GetTime(r) == GetTime(e) && GetTick(r) == GetTick(e)
    ensures r == e.(record := e.record.(flags := r.record.flags))
    ensures Valid(e) ==> Valid(r)
  {
    if isHighPrio then e.(record := e.record.(flags := e.record.flags | PRIORITY_HIGH))
    else e.(record := e.record.(flags := e.record.flags & !PRIORITY_HIGH))
  }
}
