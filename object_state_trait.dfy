/** `ObjectStateTrait`: the noise dimension that belongs to a state type of
    a given compile-time size. */
module ObjectStateTrait {

  /** Eigen's `Dynamic`: the size marker of a vector whose size is known only
      at run time. */
  const Dynamic: int := -1

  /** C++ `/` on `int`: the quotient truncated toward zero. */
  function CppDiv(a: int, b: int): int
    requires b != 0
  {
    if (a >= 0) == (b > 0) then
      (if a >= 0 then a else -a) / (if b > 0 then b else -b)
    else
      -((if a >= 0 then a else -a) / (if b > 0 then b else -b))
  }

  /** `NoiseDim`: half of the state's compile-time size when that size is
      fixed, and the `Dynamic` marker when it is not. */
  function NoiseDim(stateSize: int): (noiseDim: int)
    ensures stateSize == Dynamic ==> noiseDim == Dynamic
    ensures stateSize >= 0 ==> 0 <= noiseDim && noiseDim + noiseDim <= stateSize <= noiseDim + noiseDim + 1
    ensures stateSize < Dynamic ==> noiseDim < 0 && noiseDim + noiseDim - 1 <= stateSize <= noiseDim + noiseDim
  {
    if stateSize != -1 then CppDiv(stateSize, 2) else Dynamic
  }

  /** For every size Eigen can give a state (fixed and non-negative, or
      `Dynamic`), the noise size is dynamic exactly when the state size is. */
  lemma NoiseDimDynamicIff(stateSize: int)
    requires stateSize >= Dynamic
    ensures NoiseDim(stateSize) == Dynamic <==> stateSize == Dynamic
  {
  }

  /** A fixed state of `n` rigid bodies, 12 entries each, has `6 * n` noise
      dimensions. */
  lemma NoiseDimOfBodies(n: nat)
    ensures NoiseDim(12 * n) == 6 * n
  {
  }
}
