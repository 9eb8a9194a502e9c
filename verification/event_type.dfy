/** The closed set of sequencer event tags and the two classifications hung
    on it: which payload shape a tag carries (the eleven `EventData::has_data`
    tables) and whether it carries variable-length data (`get_length_flag`).

    The numeric values of the tags come from the C library and are not part
    of this model; a tag is just one of 59 constructors. */
module EventTypes {
  import opened Wrappers

  datatype EventType =
    | Bounce | Chanpress | ClientChange | ClientExit | ClientStart | Clock
    | Continue | Control14 | Controller | Echo | Keypress | Keysign | None
    | Nonregparam | Note | Noteoff | Noteon | Oss | Pgmchange | Pitchbend
    | PortChange | PortExit | PortStart | PortSubscribed | PortUnsubscribed
    | Qframe | QueueSkew | Regparam | Reset | Result | Sensing | SetposTick
    | SetposTime | Songpos | Songsel | Start | Stop | SyncPos | Sysex | System
    | Tempo | Tick | Timesign | TuneRequest | Usr0 | Usr1 | Usr2 | Usr3 | Usr4
    | Usr5 | Usr6 | Usr7 | Usr8 | Usr9 | UsrVar0 | UsrVar1 | UsrVar2 | UsrVar3
    | UsrVar4

  /** The tag at position `i` of the declaration order. */
  function FromOrdinal(i: nat): EventType
    requires i < 59
  {
    if i == 0 then Bounce
    else if i == 1 then Chanpress
    else if i == 2 then ClientChange
    else if i == 3 then ClientExit
    else if i == 4 then ClientStart
    else if i == 5 then Clock
    else if i == 6 then Continue
    else if i == 7 then Control14
    else if i == 8 then Controller
    else if i == 9 then Echo
    else if i == 10 then Keypress
    else if i == 11 then Keysign
    else if i == 12 then EventType.None
    else if i == 13 then Nonregparam
    else if i == 14 then Note
    else if i == 15 then Noteoff
    else if i == 16 then Noteon
    else if i == 17 then Oss
    else if i == 18 then Pgmchange
    else if i == 19 then Pitchbend
    else if i == 20 then PortChange
    else if i == 21 then PortExit
    else if i == 22 then PortStart
    else if i == 23 then PortSubscribed
    else if i == 24 then PortUnsubscribed
    else if i == 25 then Qframe
    else if i == 26 then QueueSkew
    else if i == 27 then Regparam
    else if i == 28 then Reset
    else if i == 29 then Result
    else if i == 30 then Sensing
    else if i == 31 then SetposTick
    else if i == 32 then SetposTime
    else if i == 33 then Songpos
    else if i == 34 then Songsel
    else if i == 35 then Start
    else if i == 36 then Stop
    else if i == 37 then SyncPos
    else if i == 38 then Sysex
    else if i == 39 then System
    else if i == 40 then Tempo
    else if i == 41 then Tick
    else if i == 42 then Timesign
    else if i == 43 then TuneRequest
    else if i == 44 then Usr0
    else if i == 45 then Usr1
    else if i == 46 then Usr2
    else if i == 47 then Usr3
    else if i == 48 then Usr4
    else if i == 49 then Usr5
    else if i == 50 then Usr6
    else if i == 51 then Usr7
    else if i == 52 then Usr8
    else if i == 53 then Usr9
    else if i == 54 then UsrVar0
    else if i == 55 then UsrVar1
    else if i == 56 then UsrVar2
    else if i == 57 then UsrVar3
    else UsrVar4
  }

  /** The position of a tag in the declaration order. */
  function Ordinal(t: EventType): (r: nat)
    ensures r < 59 && FromOrdinal(r) == t
  {
    match t
    case Bounce => 0
    case Chanpress => 1
    case ClientChange => 2
    case ClientExit => 3
    case ClientStart => 4
    case Clock => 5
    case Continue => 6
    case Control14 => 7
    case Controller => 8
    case Echo => 9
    case Keypress => 10
    case Keysign => 11
    case None => 12
    case Nonregparam => 13
    case Note => 14
    case Noteoff => 15
    case Noteon => 16
    case Oss => 17
    case Pgmchange => 18
    case Pitchbend => 19
    case PortChange => 20
    case PortExit => 21
    case PortStart => 22
    case PortSubscribed => 23
    case PortUnsubscribed => 24
    case Qframe => 25
    case QueueSkew => 26
    case Regparam => 27
    case Reset => 28
    case Result => 29
    case Sensing => 30
    case SetposTick => 31
    case SetposTime => 32
    case Songpos => 33
    case Songsel => 34
    case Start => 35
    case Stop => 36
    case SyncPos => 37
    case Sysex => 38
    case System => 39
    case Tempo => 40
    case Tick => 41
    case Timesign => 42
    case TuneRequest => 43
    case Usr0 => 44
    case Usr1 => 45
    case Usr2 => 46
    case Usr3 => 47
    case Usr4 => 48
    case Usr5 => 49
    case Usr6 => 50
    case Usr7 => 51
    case Usr8 => 52
    case Usr9 => 53
    case UsrVar0 => 54
    case UsrVar1 => 55
    case UsrVar2 => 56
    case UsrVar3 => 57
    case UsrVar4 => 58
  }

  /** `ALL_EVENT_TYPES`: every tag, in declaration order. */
  const AllEventTypes: seq<EventType> := seq(59, i requires 0 <= i < 59 => FromOrdinal(i))

  /** The table lists every tag exactly once. */
  lemma AllEventTypesEnumerates()
    ensures |AllEventTypes| == 59
    ensures forall t: EventType :: t in AllEventTypes
    ensures forall i, j :: 0 <= i < j < |AllEventTypes| ==> AllEventTypes[i] != AllEventTypes[j]
  {
    forall t: EventType
      ensures t in AllEventTypes
    {
      assert AllEventTypes[Ordinal(t)] == t;
    }
    forall i | 0 <= i < |AllEventTypes|
      ensures Ordinal(AllEventTypes[i]) == i
    {
    }
  }

  // ---------------------------------------------------------------------
  // Length classification (flags bits 2..3 of the C record)
  // ---------------------------------------------------------------------

  const LENGTH_FIXED: bv8 := 0 << 2
  const LENGTH_MASK: bv8 := 3 << 2
  const LENGTH_VARIABLE: bv8 := 1 << 2
  const LENGTH_VARUSR: bv8 := 2 << 2

  /** `Event::get_length_flag`. `Bounce` is classified like `Sysex`. */
  function LengthFlag(t: EventType): (r: bv8)
    ensures r == LENGTH_FIXED || r == LENGTH_VARIABLE || r == LENGTH_VARUSR
    ensures r & LENGTH_MASK == r
  {
    match t
    case Sysex => LENGTH_VARIABLE
    case Bounce => LENGTH_VARIABLE
    case UsrVar0 => LENGTH_VARUSR
    case UsrVar1 => LENGTH_VARUSR
    case UsrVar2 => LENGTH_VARUSR
    case UsrVar3 => LENGTH_VARUSR
    case UsrVar4 => LENGTH_VARUSR
    case _ => LENGTH_FIXED
  }

  /** `Event::has_ext_data`: the tag carries a variable-length buffer. */
  function HasExtData(t: EventType): (r: bool)
    ensures r <==> t in VariableTags
  {
    LengthFlag(t) != LENGTH_FIXED
  }

  /** The seven tags whose payload lives outside the fixed record. */
  const VariableTags: set<EventType> := {Sysex, Bounce, UsrVar0, UsrVar1, UsrVar2, UsrVar3, UsrVar4}

  lemma LengthFlagClassification(t: EventType)
    ensures LengthFlag(t) == LENGTH_VARIABLE <==> t == Sysex || t == Bounce
    ensures LengthFlag(t) == LENGTH_VARUSR <==> t in {UsrVar0, UsrVar1, UsrVar2, UsrVar3, UsrVar4}
    ensures LengthFlag(t) == LENGTH_FIXED <==> t !in VariableTags
    ensures HasExtData(t) <==> t in VariableTags
  {
  }

  lemma VariableTagCount()
    ensures |VariableTags| == 7
  {
  }

  // ---------------------------------------------------------------------
  // Payload shapes: one per `impl EventData for D`
  // ---------------------------------------------------------------------

  /** The eleven payload types that implement `EventData`. */
  datatype Shape =
    | EmptyShape        // ()
    | RawShape          // [u8; 12]
    | NoteShape         // EvNote
    | CtrlShape         // EvCtrl
    | AddrShape         // Addr
    | ConnectShape      // Connect
    | QueueShape        // EvQueueControl<()>
    | QueueValueShape   // EvQueueControl<i32>
    | QueuePosShape     // EvQueueControl<u32>
    | QueueTimeShape    // EvQueueControl<Duration>
    | ResultShape       // EvResult

  function EmptyHasData(t: EventType): (r: bool)
    ensures r <==> ShapeOf(t) == Some(EmptyShape)
  {
    match t
    case TuneRequest => true
    case Reset => true
    case Sensing => true
    case None => true
    case _ => false
  }

  function RawHasData(t: EventType): (r: bool)
    ensures r <==> ShapeOf(t) == Some(RawShape)
  {
    match t
    case Echo => true
    case Oss => true
    case Usr0 => true
    case Usr1 => true
    case Usr2 => true
    case Usr3 => true
    case Usr4 => true
    case Usr5 => true
    case Usr6 => true
    case Usr7 => true
    case Usr8 => true
    case Usr9 => true
    case _ => false
  }

  function NoteHasData(t: EventType): (r: bool)
    ensures r <==> ShapeOf(t) == Some(NoteShape)
  {
    match t
    case Note => true
    case Noteon => true
    case Noteoff => true
    case Keypress => true
    case _ => false
  }

  function CtrlHasData(t: EventType): (r: bool)
    ensures r <==> ShapeOf(t) == Some(CtrlShape)
  {
    match t
    case Controller => true
    case Pgmchange => true
    case Chanpress => true
    case Pitchbend => true
    case Control14 => true
    case Nonregparam => true
    case Regparam => true
    case Songpos => true
    case Songsel => true
    case Qframe => true
    case Timesign => true
    case Keysign => true
    case _ => false
  }

  function AddrHasData(t: EventType): (r: bool)
    ensures r <==> ShapeOf(t) == Some(AddrShape)
  {
    match t
    case ClientStart => true
    case ClientExit => true
    case ClientChange => true
    case PortStart => true
    case PortExit => true
    case PortChange => true
    case _ => false
  }

  function ConnectHasData(t: EventType): (r: bool)
    ensures r <==> ShapeOf(t) == Some(ConnectShape)
  {
    match t
    case PortSubscribed => true
    case PortUnsubscribed => true
    case _ => false
  }

  function QueueHasData(t: EventType): (r: bool)
    ensures r <==> ShapeOf(t) == Some(QueueShape)
  {
    match t
    case Start => true
    case Continue => true
    case Stop => true
    case Clock => true
    case QueueSkew => true
    case _ => false
  }

  function QueueValueHasData(t: EventType): (r: bool)
    ensures r <==> ShapeOf(t) == Some(QueueValueShape)
  {
    match t
    case Tempo => true
    case _ => false
  }

  function QueuePosHasData(t: EventType): (r: bool)
    ensures r <==> ShapeOf(t) == Some(QueuePosShape)
  {
    match t
    case SyncPos => true
    case Tick => true
    case SetposTick => true
    case _ => false
  }

  function QueueTimeHasData(t: EventType): (r: bool)
    ensures r <==> ShapeOf(t) == Some(QueueTimeShape)
  {
    match t
    case SetposTime => true
    case _ => false
  }

  function ResultHasData(t: EventType): (r: bool)
    ensures r <==> ShapeOf(t) == Some(ResultShape)
  {
    match t
    case System => true
    case Result => true
    case _ => false
  }

  /** `D::has_data(t)` for the payload type `D` named by `s`. */
  predicate HasData(s: Shape, t: EventType) {
    match s
    case EmptyShape => EmptyHasData(t)
    case RawShape => RawHasData(t)
    case NoteShape => NoteHasData(t)
    case CtrlShape => CtrlHasData(t)
    case AddrShape => AddrHasData(t)
    case ConnectShape => ConnectHasData(t)
    case QueueShape => QueueHasData(t)
    case QueueValueShape => QueueValueHasData(t)
    case QueuePosShape => QueuePosHasData(t)
    case QueueTimeShape => QueueTimeHasData(t)
    case ResultShape => ResultHasData(t)
  }

  /** The tag-to-shape table written the other way round: one row per tag.
      `None` means the tag carries variable-length data instead of an inline
      payload. */
  function ShapeOf(t: EventType): Option<Shape> {
    match t
    case Bounce => Option.None
    case Chanpress => Some(CtrlShape)
    case ClientChange => Some(AddrShape)
    case ClientExit => Some(AddrShape)
    case ClientStart => Some(AddrShape)
    case Clock => Some(QueueShape)
    case Continue => Some(QueueShape)
    case Control14 => Some(CtrlShape)
    case Controller => Some(CtrlShape)
    case Echo => Some(RawShape)
    case Keypress => Some(NoteShape)
    case Keysign => Some(CtrlShape)
    case None => Some(EmptyShape)
    case Nonregparam => Some(CtrlShape)
    case Note => Some(NoteShape)
    case Noteoff => Some(NoteShape)
    case Noteon => Some(NoteShape)
    case Oss => Some(RawShape)
    case Pgmchange => Some(CtrlShape)
    case Pitchbend => Some(CtrlShape)
    case PortChange => Some(AddrShape)
    case PortExit => Some(AddrShape)
    case PortStart => Some(AddrShape)
    case PortSubscribed => Some(ConnectShape)
    case PortUnsubscribed => Some(ConnectShape)
    case Qframe => Some(CtrlShape)
    case QueueSkew => Some(QueueShape)
    case Regparam => Some(CtrlShape)
    case Reset => Some(EmptyShape)
    case Result => Some(ResultShape)
    case Sensing => Some(EmptyShape)
    case SetposTick => Some(QueuePosShape)
    case SetposTime => Some(QueueTimeShape)
    case Songpos => Some(CtrlShape)
    case Songsel => Some(CtrlShape)
    case Start => Some(QueueShape)
    case Stop => Some(QueueShape)
    case SyncPos => Some(QueuePosShape)
    case Sysex => Option.None
    case System => Some(ResultShape)
    case Tempo => Some(QueueValueShape)
    case Tick => Some(QueuePosShape)
    case Timesign => Some(CtrlShape)
    case TuneRequest => Some(EmptyShape)
    case Usr0 => Some(RawShape)
    case Usr1 => Some(RawShape)
    case Usr2 => Some(RawShape)
    case Usr3 => Some(RawShape)
    case Usr4 => Some(RawShape)
    case Usr5 => Some(RawShape)
    case Usr6 => Some(RawShape)
    case Usr7 => Some(RawShape)
    case Usr8 => Some(RawShape)
    case Usr9 => Some(RawShape)
    case UsrVar0 => Option.None
    case UsrVar1 => Option.None
    case UsrVar2 => Option.None
    case UsrVar3 => Option.None
    case UsrVar4 => Option.None
  }

  /** The eleven `has_data` tables and `has_ext_data` agree with the
      one-row-per-tag table. The first clause only collects the eleven
      tables' own postconditions behind the `HasData` dispatcher; the second
      says a tag carries variable-length data exactly when its row names no
      shape. */
  lemma ShapeTableAgrees(s: Shape, t: EventType)
    ensures HasData(s, t) <==> ShapeOf(t) == Some(s)
    ensures HasExtData(t) <==> ShapeOf(t) == Option.None
  {
  }

  /** The number of classifications that accept `t`, counted in the order of
      the `seq_has_data` test. */
  function MatchCount(t: EventType): nat {
    (if EmptyHasData(t) then 1 else 0)
    + (if RawHasData(t) then 1 else 0)
    + (if HasExtData(t) then 1 else 0)
    + (if NoteHasData(t) then 1 else 0)
    + (if CtrlHasData(t) then 1 else 0)
    + (if AddrHasData(t) then 1 else 0)
    + (if ConnectHasData(t) then 1 else 0)
    + (if ResultHasData(t) then 1 else 0)
    + (if QueueHasData(t) then 1 else 0)
    + (if QueuePosHasData(t) then 1 else 0)
    + (if QueueValueHasData(t) then 1 else 0)
    + (if QueueTimeHasData(t) then 1 else 0)
  }

  /** Every tag is accepted by exactly one of the twelve classifications. */
  lemma PartitionOfTags(t: EventType)
    ensures MatchCount(t) == 1
  {
  }

  /** The same partition, stated as "exactly one": either the tag carries
      variable-length data and no shape accepts it, or exactly one shape does. */
  lemma ExactlyOneShape(t: EventType)
    ensures HasExtData(t) ==> forall s: Shape :: !HasData(s, t)
    ensures !HasExtData(t) ==> exists s: Shape :: HasData(s, t)
    ensures forall s1: Shape, s2: Shape :: HasData(s1, t) && HasData(s2, t) ==> s1 == s2
  {
    if !HasExtData(t) {
      assert HasData(ShapeOf(t).value, t);
    }
  }
}
