/** What the matrices the builder produces mean: where each body's blocks
    sit, what the parameters can change, and what the block structure does
    to the update `next = A·state + B·noise`. */
module TransitionModelProperties {
  import opened DenseMatrix
  import opened TransitionModelBuilder

  /** Body i's 12×12 diagonal block of A is the per-body dynamics block. */
  lemma DynamicsBlockOnDiagonal(p: Parameters, i: nat, j: nat, k: nat)
    requires j < 12 && k < 12
    ensures DynamicsEntry(p, 12 * i + j, 12 * i + k) == PartDynamicsEntry(p.velocityFactor, j, k)
  {
  }

  /** The block of A that couples body i to a different body i' is zero. */
  lemma DynamicsZeroAcrossBodies(p: Parameters, i: nat, i': nat, j: nat, k: nat)
    requires i != i' && j < 12 && k < 12
    ensures DynamicsEntry(p, 12 * i + j, 12 * i' + k) == 0.0
  {
  }

  /** Body i's block of B, rows 12·i.. and columns 6·i.., is the per-body
      noise block. */
  lemma NoiseBlockOnDiagonal(p: Parameters, i: nat, j: nat, k: nat)
    requires j < 12 && k < 6
    ensures NoiseEntry(p, 12 * i + j, 6 * i + k) == PartNoiseEntry(p.linearSigma, p.angularSigma, j, k)
  {
  }

  /** No noise of body i' reaches the state of a different body i. */
  lemma NoiseZeroAcrossBodies(p: Parameters, i: nat, i': nat, j: nat, k: nat)
    requires i != i' && j < 12 && k < 6
    ensures NoiseEntry(p, 12 * i + j, 6 * i' + k) == 0.0
  {
  }

  /** The four 6×6 quadrants of the per-body dynamics block: pose persists,
      pose receives the damped velocity, velocity is damped, and velocity
      receives nothing from pose. */
  lemma PartDynamicsQuadrants(velocityFactor: real, j: nat, k: nat)
    requires j < 6 && k < 6
    ensures PartDynamicsEntry(velocityFactor, j, k) == (if j == k then 1.0 else 0.0)
    ensures PartDynamicsEntry(velocityFactor, j, k + 6) == (if j == k then velocityFactor else 0.0)
    ensures PartDynamicsEntry(velocityFactor, j + 6, k + 6) == (if j == k then velocityFactor else 0.0)
    ensures PartDynamicsEntry(velocityFactor, j + 6, k) == 0.0
  {
  }

  /** The pose rows of the per-body noise block: linear_sigma on the three
      linear channels, angular_sigma on the three angular ones, 0 elsewhere;
      and each velocity row j + 6 equals pose row j. */
  lemma PartNoiseRows(linearSigma: real, angularSigma: real, j: nat, k: nat)
    requires j < 6 && k < 6
    ensures PartNoiseEntry(linearSigma, angularSigma, j, k)
         == (if j != k then 0.0 else if j < 3 then linearSigma else angularSigma)
    ensures PartNoiseEntry(linearSigma, angularSigma, j + 6, k) == PartNoiseEntry(linearSigma, angularSigma, j, k)
  {
  }

  /** The sigmas never change A. */
  lemma SigmasNeverAffectDynamics(p: Parameters, q: Parameters, r: nat, c: nat)
    requires p.velocityFactor == q.velocityFactor
    ensures DynamicsEntry(p, r, c) == DynamicsEntry(q, r, c)
  {
  }

  /** A change of velocity_factor alone changes only the right-hand six
      columns of the diagonal blocks of A, and never changes B. */
  lemma VelocityFactorOnlyInRightColumns(p: Parameters, q: Parameters, r: nat, c: nat)
    requires q == p.(velocityFactor := q.velocityFactor)
    ensures DynamicsEntry(p, r, c) != DynamicsEntry(q, r, c) ==> r / 12 == c / 12 && 6 <= c % 12
    ensures NoiseEntry(p, r, c) == NoiseEntry(q, r, c)
  {
  }

  /** A change of linear_sigma alone changes only the linear 3×3 channels of
      the blocks of B (pose and velocity rows alike). */
  lemma LinearSigmaOnlyInLinearChannels(p: Parameters, q: Parameters, r: nat, c: nat)
    requires q == p.(linearSigma := q.linearSigma)
    ensures NoiseEntry(p, r, c) != NoiseEntry(q, r, c) ==>
      r / 12 == c / 6 && c % 6 < 3 && (r % 12) % 6 == c % 6
  {
  }

  /** A change of angular_sigma alone changes only the angular 3×3 channels
      of the blocks of B (pose and velocity rows alike). */
  lemma AngularSigmaOnlyInAngularChannels(p: Parameters, q: Parameters, r: nat, c: nat)
    requires q == p.(angularSigma := q.angularSigma)
    ensures NoiseEntry(p, r, c) != NoiseEntry(q, r, c) ==>
      r / 12 == c / 6 && 3 <= c % 6 && (r % 12) % 6 == c % 6
  {
  }

  /** Row 12·i + j + 6 (a velocity row) of B equals row 12·i + j (the pose
      row it belongs to). */
  lemma VelocityRowCopiesPoseRow(p: Parameters, i: nat, j: nat, c: nat)
    requires j < 6
    ensures NoiseEntry(p, 12 * i + j + 6, c) == NoiseEntry(p, 12 * i + j, c)
  {
  }

  /** Two models built from the same parameters have the same entries. */
  lemma BuildIsDeterministic(m: LinearStateTransitionModel, m': LinearStateTransitionModel, p: Parameters,
                             r: nat, c: nat)
    requires IsObjectModel(m, p) && IsObjectModel(m', p)
    requires r < m.stateDim
    ensures m'.stateDim == m.stateDim && m'.noiseDim == m.noiseDim && m'.inputDim == m.inputDim
    ensures c < m.stateDim ==> m.dynamicsMatrix[r, c] == m'.dynamicsMatrix[r, c]
    ensures c < m.noiseDim ==> m.noiseMatrix[r, c] == m'.noiseMatrix[r, c]
    ensures m.inputMatrix[r, 0] == m'.inputMatrix[r, 0]
  {
  }

  /** The model of one body with linear_sigma 0.1, angular_sigma 0.2 and
      velocity_factor 0.9, at one entry of each of its sub-blocks. */
  lemma OneBodyExample(j: nat, k: nat)
    requires j < 6 && k < 6
    ensures var p := Parameters(0.1, 0.2, 0.9, 1);
      && DynamicsEntry(p, j, k) == (if j == k then 1.0 else 0.0)
      && DynamicsEntry(p, j, k + 6) == (if j == k then 0.9 else 0.0)
      && DynamicsEntry(p, j + 6, k + 6) == (if j == k then 0.9 else 0.0)
      && DynamicsEntry(p, j + 6, k) == 0.0
      && NoiseEntry(p, j, k) == (if j != k then 0.0 else if j < 3 then 0.1 else 0.2)
      && NoiseEntry(p, j + 6, k) == (if j != k then 0.0 else if j < 3 then 0.1 else 0.2)
  {
  }

  /** Row r of A·x, summed over the columns c < k only. */
  function DynamicsRowTimes(p: Parameters, r: nat, x: seq<real>, k: nat): real
    requires k <= |x|
  {
    if k == 0 then 0.0 else DynamicsRowTimes(p, r, x, k - 1) + DynamicsEntry(p, r, k - 1) * x[k - 1]
  }

  /** Row r of B·w, summed over the columns c < k only. */
  function NoiseRowTimes(p: Parameters, r: nat, w: seq<real>, k: nat): real
    requires k <= |w|
  {
    if k == 0 then 0.0 else NoiseRowTimes(p, r, w, k - 1) + NoiseEntry(p, r, k - 1) * w[k - 1]
  }

  /** Bodies evolve independently: entry r of A·x depends only on the 12
      entries of x that belong to the same body as r. */
  lemma {:induction false} BodiesEvolveIndependently(p: Parameters, r: nat, x: seq<real>, y: seq<real>, k: nat)
    requires k <= |x| && |x| == |y|
    requires forall c :: 0 <= c < k && c / 12 == r / 12 ==> x[c] == y[c]
    ensures DynamicsRowTimes(p, r, x, k) == DynamicsRowTimes(p, r, y, k)
  {
    if k > 0 {
      BodiesEvolveIndependently(p, r, x, y, k - 1);
    }
  }

  /** Entry r of B·w depends only on the 6 noise entries of the body r
      belongs to. */
  lemma {:induction false} NoiseOfOtherBodiesIgnored(p: Parameters, r: nat, w: seq<real>, v: seq<real>, k: nat)
    requires k <= |w| && |w| == |v|
    requires forall c :: 0 <= c < k && c / 6 == r / 12 ==> w[c] == v[c]
    ensures NoiseRowTimes(p, r, w, k) == NoiseRowTimes(p, r, v, k)
  {
    if k > 0 {
      NoiseOfOtherBodiesIgnored(p, r, w, v, k - 1);
    }
  }

  /** The same noise sample moves a pose component and the matching velocity
      component by the same amount: entry 12·i + j + 6 of B·w equals entry
      12·i + j. */
  lemma {:induction false} PoseAndVelocityShareNoise(p: Parameters, i: nat, j: nat, w: seq<real>, k: nat)
    requires j < 6 && k <= |w|
    ensures NoiseRowTimes(p, 12 * i + j + 6, w, k) == NoiseRowTimes(p, 12 * i + j, w, k)
  {
    if k > 0 {
      PoseAndVelocityShareNoise(p, i, j, w, k - 1);
      VelocityRowCopiesPoseRow(p, i, j, k - 1);
    }
  }
}
