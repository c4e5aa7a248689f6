/** The ways one analysis of an uploaded recording can stop before it produces
    a result, and a failure-compatible Result type so that the pipelines can be
    written with `:-`. */
module Outcomes {

  /** Each failure is an exception the scripts would raise at one line.
      - MissingChannel: `data[:, 0]` on a frame array with no channels (IndexError).
      - DivisionByZero: `len(data) / rate` with a zero sample rate (ZeroDivisionError).
      - EmptyTransform: the FFT of an empty signal (ValueError from the FFT routine).
      - EmptyArgMax: `np.argmax` of an empty dB sequence (ValueError). */
  datatype Failure = MissingChannel | DivisionByZero | EmptyTransform | EmptyArgMax

  datatype Result<+T> = Ok(value: T) | Err(failure: Failure) {

    predicate IsFailure() {
      Err?
    }

    function PropagateFailure<U>(): Result<U>
      requires Err?
    {
      Err(failure)
    }

    function Extract(): T
      requires Ok?
    {
      value
    }
  }
}
