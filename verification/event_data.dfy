/** The typed payloads an event can carry (the types that implement
    `EventData`), the fixed-width integers they are made of, and the
    well-known addresses.

    Fixed-width integers are bounded `int`s, so that the truncating `as`
    casts of the Rust code show up as explicit `%`. (Only the flags byte of
    the C record, which is manipulated bit by bit, is a `bv8`.) */
module EventData {
  import opened EventTypes

  type U8 = x: int | 0 <= x < 256
  type I32 = x: int | -0x8000_0000 <= x < 0x8000_0000
  type U32 = x: int | 0 <= x < 0x1_0000_0000
  type U64 = x: int | 0 <= x < 0x1_0000_0000_0000_0000

  const NANOS_PER_SEC: int := 1_000_000_000
  type Nanos = x: int | 0 <= x < NANOS_PER_SEC

  /** `x as u8` for a 32-bit signed `x`: keep the low eight bits. Dafny's
      `%` never returns a negative number, which is exactly two's-complement
      truncation. */
  function Trunc8(x: I32): (r: U8)
    ensures (x - r) % 256 == 0
    ensures 0 <= x < 256 ==> r == x
  {
    x % 256
  }

  /** `x as c_uint` for a 64-bit unsigned `x`. */
  function Trunc32(x: U64): (r: U32)
    ensures (x - r) % 0x1_0000_0000 == 0
    ensures x < 0x1_0000_0000 ==> r == x
  {
    x % 0x1_0000_0000
  }

  /** `std::time::Duration`: whole seconds plus a nanosecond part below one
      second. */
  datatype Duration = Duration(secs: U64, nanos: Nanos)

  /** `Duration::new(secs, nanos)` for 32-bit inputs: nanoseconds beyond a
      whole second are carried into the seconds (the carry cannot overflow
      64 bits from 32-bit inputs, so `Duration::new` never panics here). */
  function DurationNew(secs: U32, nanos: U32): (r: Duration)
    ensures r.secs * NANOS_PER_SEC + r.nanos == secs * NANOS_PER_SEC + nanos
    ensures nanos < NANOS_PER_SEC ==> r == Duration(secs, nanos)
  {
    Duration(secs + nanos / NANOS_PER_SEC, nanos % NANOS_PER_SEC)
  }

  /** `Addr`: a (client, port) endpoint. The fields are `i32` in the API but
      one byte each in the C record. */
  datatype Addr = Addr(client: I32, port: I32)

  const CLIENT_SYSTEM: U8 := 0
  const PORT_SYSTEM_TIMER: U8 := 0
  const PORT_SYSTEM_ANNOUNCE: U8 := 1
  const ADDRESS_BROADCAST: U8 := 255
  const ADDRESS_SUBSCRIBERS: U8 := 254
  const ADDRESS_UNKNOWN: U8 := 253
  const QUEUE_DIRECT: U8 := 253

  /** An address whose fields survive the trip through the one-byte C fields. */
  predicate AddrFitsRecord(a: Addr) {
    0 <= a.client < 256 && 0 <= a.port < 256
  }

  function SystemTimer(): (r: Addr)
    ensures AddrFitsRecord(r)
    ensures Trunc8(r.client) == CLIENT_SYSTEM && Trunc8(r.port) == PORT_SYSTEM_TIMER
  {
    Addr(CLIENT_SYSTEM, PORT_SYSTEM_TIMER)
  }

  function SystemAnnounce(): (r: Addr)
    ensures AddrFitsRecord(r)
    ensures Trunc8(r.client) == CLIENT_SYSTEM && Trunc8(r.port) == PORT_SYSTEM_ANNOUNCE
  {
    Addr(CLIENT_SYSTEM, PORT_SYSTEM_ANNOUNCE)
  }

  function Broadcast(): (r: Addr)
    ensures AddrFitsRecord(r)
    ensures Trunc8(r.client) == ADDRESS_BROADCAST && Trunc8(r.port) == ADDRESS_BROADCAST
  {
    Addr(ADDRESS_BROADCAST, ADDRESS_BROADCAST)
  }

  datatype EvNote = EvNote(channel: U8, note: U8, velocity: U8, offVelocity: U8, duration: U32)

  datatype EvCtrl = EvCtrl(channel: U8, param: U32, value: I32)

  datatype Connect = Connect(sender: Addr, dest: Addr)

  /** The auxiliary value of `EvQueueControl<T>`, one arm per `T` the
      Rust code implements `EventData` for. */
  datatype QueueValue =
    | NoValue                 // ()
    | Value(v: I32)           // i32
    | Position(pos: U32)      // u32
    | Time(time: Duration)    // time::Duration

  datatype EvQueueControl = EvQueueControl(queue: I32, value: QueueValue)

  datatype EvResult = EvResult(event: I32, result: I32)

  type Bytes12 = s: seq<U8> | |s| == 12 witness [0, 0, 0, 0, 0, 0, 0, 0, 0, 0, 0, 0]

  /** A value of one of the eleven `EventData` types. */
  datatype Payload =
    | EmptyPayload
    | RawPayload(raw: Bytes12)
    | NotePayload(note: EvNote)
    | CtrlPayload(ctrl: EvCtrl)
    | AddrPayload(addr: Addr)
    | ConnectPayload(connect: Connect)
    | QueuePayload(control: EvQueueControl)
    | ResultPayload(res: EvResult)

  /** The `EventData` type a payload value belongs to. */
  function ShapeOfPayload(p: Payload): Shape {
    match p
    case EmptyPayload => EmptyShape
    case RawPayload(_) => RawShape
    case NotePayload(_) => NoteShape
    case CtrlPayload(_) => CtrlShape
    case AddrPayload(_) => AddrShape
    case ConnectPayload(_) => ConnectShape
    case QueuePayload(q) => QueueValueShapeOf(q.value)
    case ResultPayload(_) => ResultShape
  }

  function QueueValueShapeOf(v: QueueValue): Shape {
    match v
    case NoValue => QueueShape
    case Value(_) => QueueValueShape
    case Position(_) => QueuePosShape
    case Time(_) => QueueTimeShape
  }

  /** A payload every field of which is representable in the C record: the
      address bytes and the queue id fit in a byte, and a queue timestamp's
      seconds fit in 32 bits. */
  predicate FitsRecord(p: Payload) {
    match p
    case AddrPayload(a) => AddrFitsRecord(a)
    case ConnectPayload(c) => AddrFitsRecord(c.sender) && AddrFitsRecord(c.dest)
    case QueuePayload(q) =>
      && 0 <= q.queue < 256
      && (q.value.Time? ==> q.value.time.secs < 0x1_0000_0000)
    case _ => true
  }

  function TruncAddr(a: Addr): (r: Addr)
    ensures AddrFitsRecord(r)
    ensures AddrFitsRecord(a) ==> r == a
  {
    Addr(a.client % 256, a.port % 256)
  }

  /** The payload as it reads back after the C record has narrowed it: a
      reference definition, independent of how the record is laid out. */
  function Narrowed(p: Payload): (r: Payload)
    ensures ShapeOfPayload(r) == ShapeOfPayload(p)
    ensures FitsRecord(r)
  {
    match p
    case AddrPayload(a) => AddrPayload(TruncAddr(a))
    case ConnectPayload(c) => ConnectPayload(Connect(TruncAddr(c.sender), TruncAddr(c.dest)))
    case QueuePayload(q) =>
      var v := if q.value.Time? then Time(Duration(Trunc32(q.value.time.secs), q.value.time.nanos)) else q.value;
      QueuePayload(EvQueueControl(q.queue % 256, v))
    case _ => p
  }

  /** Narrowing changes a payload exactly when one of its fields does not fit
      the record. */
  lemma NarrowedFixedPoint(p: Payload)
    ensures Narrowed(p) == p <==> FitsRecord(p)
    ensures Narrowed(Narrowed(p)) == Narrowed(p)
  {
  }
}
