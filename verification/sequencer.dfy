/** The local logic of `Seq`: the tag check of `control_queue`, and the
    single-`Input` checkout guard kept in the `Cell<bool>` next to the C
    handle. Everything else `Seq` does is forwarded to the C library and is
    not part of this model. */
module Sequencer {
  import opened Wrappers
  import opened EventTypes
  import opened EventData

  /** The assertion `control_queue` starts with: the tag must be a queue
      control whose auxiliary value is none, an `i32` or a `u32`. */
  function ControlQueueCheck(t: EventType): (r: Result<()>)
    ensures r.Ok? <==> HasData(QueueShape, t) || HasData(QueueValueShape, t) || HasData(QueuePosShape, t)
    ensures r.Panic? ==> r.reason == NotAQueueControlTag
  {
    if QueueHasData(t) || QueueValueHasData(t) || QueuePosHasData(t) then Ok(()) else Panic(NotAQueueControlTag)
  }

  /** `SetposTime`, whose payload carries a duration, is the one queue
      control tag `control_queue` refuses. */
  lemma ControlQueueTags(t: EventType)
    ensures ControlQueueCheck(t).Ok? <==> ShapeOf(t) in {Some(QueueShape), Some(QueueValueShape), Some(QueuePosShape)}
    ensures ControlQueueCheck(SetposTime).Panic?
  {
    ShapeTableAgrees(QueueShape, t);
    ShapeTableAgrees(QueueValueShape, t);
    ShapeTableAgrees(QueuePosShape, t);
  }

  // ---------------------------------------------------------------------
  // The checkout guard
  // ---------------------------------------------------------------------

  /** The part of `Seq` the guard needs: whether an `Input` is alive. */
  datatype SeqState = SeqState(inputTaken: bool)

  /** `Seq::open` starts with no `Input`. */
  const Opened: SeqState := SeqState(false)

  /** `check_has_input`. */
  function CheckHasInput(s: SeqState): (r: Result<()>)
    ensures r.Ok? <==> !s.inputTaken
    ensures r.Panic? ==> r.reason == InputAlreadyTaken
  {
    if s.inputTaken then Panic(InputAlreadyTaken) else Ok(())
  }

  /** `Seq::input` (that is, `Input::new`): panics while another `Input` is
      alive; otherwise marks the sequencer as having one. */
  function TakeInput(s: SeqState): (r: Result<SeqState>)
    ensures r.Ok? <==> !s.inputTaken
    ensures r.Panic? ==> r.reason == InputAlreadyTaken
    ensures r.Ok? ==> r.value.inputTaken
  {
    var _ :- CheckHasInput(s);
    Ok(s.(inputTaken := true))
  }

  /** `Drop for Input`: clears the flag unconditionally. */
  function DropInput(s: SeqState): (r: SeqState)
    ensures !r.inputTaken
    ensures TakeInput(r).Ok?
  {
    s.(inputTaken := false)
  }

  /** The `seq_get_input_twice` test: a second `input()` while the first is
      alive panics; once the first is dropped, `input()` succeeds again. */
  lemma SecondInputPanics(s: SeqState)
    requires TakeInput(s).Ok?
    ensures TakeInput(TakeInput(s).value) == Panic(InputAlreadyTaken)
    ensures TakeInput(DropInput(TakeInput(s).value)).Ok?
  {
  }

  /** One step of a program using the guard. */
  datatype Step = Take | Drop

  /** The sequencer flag together with the number of `Input` values the
      program holds. */
  datatype Checkouts = Checkouts(handle: SeqState, live: nat)

  /** A program only drops an `Input` it holds: Rust's ownership rules make
      every other sequence of steps impossible to write. */
  predicate DropsHeld(live: nat, steps: seq<Step>)
    decreases |steps|
  {
    |steps| == 0 ||
    match steps[0]
    case Take => DropsHeld(live + 1, steps[1..])
    case Drop => live > 0 && DropsHeld(live - 1, steps[1..])
  }

  /** The guard's invariant: at most one `Input` is alive, and the flag says
      whether one is. */
  predicate AtMostOneInput(c: Checkouts) {
    c.live <= 1 && (c.handle.inputTaken <==> c.live == 1)
  }

  /** Runs a program, stopping at the first panic. Starting from a state
      where the invariant holds, every state it reaches keeps it, so no two
      `Input`s are ever alive together. */
  function Run(c: Checkouts, steps: seq<Step>): (r: Result<Checkouts>)
    requires DropsHeld(c.live, steps)
    ensures AtMostOneInput(c) && r.Ok? ==> AtMostOneInput(r.value)
    ensures r.Panic? ==> r.reason == InputAlreadyTaken
    decreases |steps|
  {
    if |steps| == 0 then Ok(c)
    else
      match steps[0]
      case Take =>
        var s :- TakeInput(c.handle);
        Run(Checkouts(s, c.live + 1), steps[1..])
      case Drop =>
        Run(Checkouts(DropInput(c.handle), c.live - 1), steps[1..])
  }

  /** A program panics exactly when it takes an `Input` while holding one. */
  predicate TakesWhileHeld(live: nat, steps: seq<Step>)
    decreases |steps|
  {
    |steps| > 0 &&
    match steps[0]
    case Take => live > 0 || TakesWhileHeld(live + 1, steps[1..])
    case Drop => TakesWhileHeld(if live > 0 then live - 1 else 0, steps[1..])
  }

  lemma {:induction false} RunPanicsIffNested(c: Checkouts, steps: seq<Step>)
    requires AtMostOneInput(c)
    requires DropsHeld(c.live, steps)
    ensures Run(c, steps).Panic? <==> TakesWhileHeld(c.live, steps)
    decreases |steps|
  {
    if |steps| > 0 {
      match steps[0]
      case Take =>
        if c.live == 0 {
          RunPanicsIffNested(Checkouts(SeqState(true), 1), steps[1..]);
        }
      case Drop =>
        RunPanicsIffNested(Checkouts(SeqState(false), c.live - 1), steps[1..]);
    }
  }

  /** The mutable form the Rust code uses: the sequencer handle owns the
      flag; `Input` sets it and releasing the `Input` clears it. */
  class Seq {
    var state: SeqState

    constructor Open()
      ensures state == Opened
    {
      state := Opened;
    }

    /** `input()`. */
    method Input() returns (r: Result<()>)
      modifies this
      ensures r.Ok? <==> !old(state).inputTaken
      ensures r.Ok? ==> state.inputTaken
      ensures r.Panic? ==> state == old(state)
    {
      var next := TakeInput(state);
      if next.Ok? {
        state := next.value;
        r := Ok(());
      } else {
        r := Panic(next.reason);
      }
    }

    /** Dropping the `Input`. */
    method Release()
      modifies this
      ensures !state.inputTaken
    {
      state := DropInput(state);
    }
  }
}
