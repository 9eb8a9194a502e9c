/** Small failure-compatible wrappers shared by the sequencer model.

    Rust's `Option` is `Option` here. A Rust `panic!`/`assert!` (including the
    `debug_assert!` of a debug build) is not an error value in alsa-rs,
    but the model has to say which inputs reach it, so every
    operation that can panic returns a `Result` whose `Panic` arm names the
    reason. */
module Wrappers {

  datatype Option<+T> = None | Some(value: T)

  /** Why an operation of alsa-rs aborts. */
  datatype PanicReason =
    | MustNotCarryVariableData   // `Event::new` on a variable-length tag
    | MustCarryVariableData      // `Event::new_ext` on a fixed-length tag
    | PayloadShapeMismatch       // `debug_assert!(D::has_data(t))` in `Event::new`
    | VariableDataMissing        // `ensure_buf`/`get_ext` on a variable-length tag without a buffer
    | NotAQueueControlTag        // the assertion at the start of `Seq::control_queue`
    | InputAlreadyTaken          // `Seq::check_has_input` while an `Input` is alive

  datatype Result<+T> = Ok(value: T) | Panic(reason: PanicReason) {
    predicate IsFailure() { Panic? }

    function PropagateFailure<U>(): Result<U>
      requires Panic?
    {
      Panic(reason)
    }

    function Extract(): T
      requires Ok?
    {
      value
    }
  }
}
