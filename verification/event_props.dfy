/** Properties that relate several event operations to each other. */
module EventProperties {
  import opened Wrappers
  import opened EventTypes
  import opened EventData
  import opened Events

  /** Running `ensure_buf` a second time changes nothing. */
  lemma EnsureBufIdempotent(e: Event)
    requires EnsureBuf(e).Ok?
    ensures EnsureBuf(EnsureBuf(e).value) == EnsureBuf(e)
  {
  }

  /** `into_owned` is idempotent and keeps everything a caller can observe. */
  lemma IntoOwnedIdempotent(e: Event)
    ensures IntoOwned(IntoOwned(e)) == IntoOwned(e)
    ensures GetExt(IntoOwned(IntoOwned(e))) == GetExt(e)
  {
  }

  /** For every event `get_ext` does not panic on, exactly one accessor
      yields something: `get_ext` when the tag carries variable-length data,
      otherwise `get_data` for the one payload type the tag belongs to. */
  lemma ExactlyOneAccessor(e: Event)
    requires HasExtData(e.eventType) ==> e.ext.Some?
    ensures GetExt(e).Ok?
    ensures GetExt(e).value.Some? <==> forall s: Shape :: GetData(e, s).None?
    ensures forall s1: Shape, s2: Shape ::
      GetData(e, s1).Some? && GetData(e, s2).Some? ==> s1 == s2
  {
    ExactlyOneShape(e.eventType);
    if !HasExtData(e.eventType) {
      ShapeTableAgrees(ShapeOf(e.eventType).value, e.eventType);
      assert GetData(e, ShapeOf(e.eventType).value).Some?;
    }
  }

  /** A freshly built fixed-length event answers `get_data` for its own
      payload type only. */
  lemma NewAnswersOnlyItsShape(t: EventType, p: Payload)
    requires New(t, p).Ok?
    ensures forall s: Shape :: GetData(New(t, p).value, s).Some? <==> s == ShapeOfPayload(p)
  {
    ExactlyOneShape(t);
  }

  /** `get_data` returns the payload given to `new` unchanged whenever its
      fields fit the C record; in particular always for notes, controls,
      results and 12-byte blobs. */
  lemma NewRoundTrip(t: EventType, p: Payload)
    requires New(t, p).Ok?
    requires FitsRecord(p)
    ensures GetData(New(t, p).value, ShapeOfPayload(p)) == Some(p)
  {
    NarrowedFixedPoint(p);
  }

  /** A freshly built event has a zeroed header: tick 0, absolute, normal
      priority, queue 0, both addresses (0, 0). */
  lemma NewHeaderIsZero(t: EventType, p: Payload)
    requires New(t, p).Ok?
    ensures var e := New(t, p).value;
      && GetTick(e) == Some(0) && GetTime(e) == Option.None
      && !GetRelative(e) && !GetPriority(e)
      && GetQueue(e) == 0 && GetTag(e) == 0
      && GetSource(e) == Addr(0, 0) && GetDest(e) == Addr(0, 0)
  {
  }

  /** The bytes given to `new_ext` come back from `get_ext`, also after
      `into_owned`, and `ensure_buf` records their length. */
  lemma NewExtRoundTrip(t: EventType, data: Cow)
    requires HasExtData(t)
    requires |data.bytes| < 0x1_0000_0000
    ensures NewExt(t, data).Ok?
    ensures GetExt(IntoOwned(NewExt(t, data).value)) == Ok(Some(data.bytes))
    ensures EnsureBuf(NewExt(t, data).value).Ok?
    ensures ExtLen(EnsureBuf(NewExt(t, data).value).value.record.data) == |data.bytes|
  {
  }

  /** Every header getter is undone by its setter: writing back what was
      read changes nothing. */
  lemma GettersInvertSetters(e: Event)
    ensures SetSource(e, GetSource(e).port) == e
    ensures SetDest(e, GetDest(e)) == e
    ensures SetTag(e, GetTag(e)) == e
    ensures SetQueue(e, GetQueue(e)) == e
    ensures SetPriority(e, GetPriority(e)) == e
  {
  }

  /** Setting the priority twice is the same as setting it once, and setting
      it to its current value changes nothing. */
  lemma SetPriorityLastWins(e: Event, a: bool, b: bool)
    ensures SetPriority(SetPriority(e, a), b) == SetPriority(e, b)
    ensures SetPriority(e, GetPriority(e)) == e
  {
  }

  /** Rescheduling by tick hides an earlier real-time stamp, and vice versa;
      the priority and length bits survive both. */
  lemma RescheduleOverrides(e: Event, q1: I32, q2: I32, r1: bool, r2: bool, d: Duration, tick: U32)
    ensures var x := ScheduleTick(ScheduleReal(e, q1, r1, d), q2, r2, tick);
      GetTick(x) == Some(tick) && GetTime(x) == Option.None && GetRelative(x) == r2
      && GetQueue(x) == q2 % 256 && x.record.flags & LENGTH_MASK == e.record.flags & LENGTH_MASK
      && GetPriority(x) == GetPriority(e)
    ensures var y := ScheduleReal(ScheduleTick(e, q1, r1, tick), q2, r2, d);
      GetTime(y) == Some(Duration(d.secs % 0x1_0000_0000, d.nanos)) && GetTick(y) == Option.None
      && GetRelative(y) == r2 && GetQueue(y) == q2 % 256
      && y.record.flags & LENGTH_MASK == e.record.flags & LENGTH_MASK
      && GetPriority(y) == GetPriority(e)
  {
    var x0 := ScheduleReal(e, q1, r1, d);
    assert x0.record.flags & LENGTH_MASK == e.record.flags & LENGTH_MASK;
    var y0 := ScheduleTick(e, q1, r1, tick);
    assert y0.record.flags & LENGTH_MASK == e.record.flags & LENGTH_MASK;
  }

  /** The local half of the `seq_loopback` test: the note event it builds,
      addressed to subscribers, sent directly from port `sport`, still
      carries the note, and is ready for output. */
  lemma LoopbackPreparation(sport: I32)
    ensures var note := EvNote(0, 64, 100, 64, 100);
      var r := New(Noteon, NotePayload(note));
      && r.Ok?
      && var e := SetSource(SetDirect(SetSubs(r.value)), sport);
      && GetType(e) == Noteon
      && GetData(e, NoteShape) == Some(NotePayload(note))
      && GetDest(e) == Addr(ADDRESS_SUBSCRIBERS, ADDRESS_UNKNOWN)
      && GetQueue(e) == QUEUE_DIRECT
      && GetSource(e).port == sport % 256
      && OutputRecord(e) == Ok(e.record)
  {
  }

  /** The local half of the `seq_decode_sysex` test: a sysex event built over
      borrowed bytes reports those bytes, and the normalisation `decode`
      starts with records their length, 9. */
  lemma SysexDecodePreparation()
    ensures var sysex: seq<U8> := [0xF0, 1, 2, 3, 4, 5, 6, 7, 0xF7];
      var r := NewExt(Sysex, Borrowed(sysex));
      && r.Ok?
      && GetExt(r.value) == Ok(Some(sysex))
      && OutputRecord(r.value).Ok?
      && ExtLen(OutputRecord(r.value).value.data) == 9
  {
  }
}
