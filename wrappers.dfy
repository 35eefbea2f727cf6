/** Nullable values of the C# source (`double?`, `DateTime?`, references that may be null). */
module Wrappers {
  datatype Option<T> = None | Some(value: T)
  {
    /** The C# `??` operator. */
    function OrElse(fallback: T): T
    {
      if Some? then value else fallback
    }

    /** The C# `??` operator with a nullable fallback. */
    function Or(fallback: Option<T>): Option<T>
    {
      if Some? then this else fallback
    }
  }

  /** Lifted `+` on `double?`: null when either side is null. */
  function AddOpt(a: Option<real>, b: Option<real>): Option<real>
  {
    if a.Some? && b.Some? then Some(a.value + b.value) else None
  }

  /** Lifted `-` on `double?`. */
  function SubOpt(a: Option<real>, b: Option<real>): Option<real>
  {
    if a.Some? && b.Some? then Some(a.value - b.value) else None
  }

  /** Lifted `*` on `double?`. */
  function MulOpt(a: Option<real>, b: Option<real>): Option<real>
  {
    if a.Some? && b.Some? then Some(a.value * b.value) else None
  }

  /** Lifted `>=` on `double?`: false when either side is null. */
  predicate GeOpt(a: Option<real>, b: Option<real>)
  {
    a.Some? && b.Some? && a.value >= b.value
  }

  /** Lifted `<=` on `double?`: false when either side is null. */
  predicate LeOpt(a: Option<real>, b: Option<real>)
  {
    a.Some? && b.Some? && a.value <= b.value
  }

  function Min(a: real, b: real): real { if a <= b then a else b }

  function Max(a: real, b: real): real { if a >= b then a else b }

  function Abs(a: real): real { if a < 0.0 then -a else a }

  /**
   * `ConversionManager.Compare` on doubles, whose definition is not part of this model.
   * It is read as `Equals` with the default tolerance `double.Epsilon`, the distance
   * below which two finite doubles are equal, so on the reals used here it is equality.
   */
  predicate Compare(a: real, b: real)
  {
    a == b
  }
}
