/** `ObjectTransitionModelBuilder`: builds the linear process model of
    `partCount` independently moving rigid bodies. The state of one body is
    12 entries, its 6 pose components followed by its 6 velocity components;
    its noise is 6 entries, 3 linear followed by 3 angular. */
module TransitionModelBuilder {
  import opened DenseMatrix

  /** The builder's configuration record. */
  datatype Parameters = Parameters(
    linearSigma: real,
    angularSigma: real,
    velocityFactor: real,
    partCount: int)

  /** The linear model `next = A·state + B·noise + C·input`, taken as the
      record of its dimensions and of its three matrices. */
  datatype LinearStateTransitionModel = LinearStateTransitionModel(
    stateDim: nat,
    noiseDim: nat,
    inputDim: nat,
    dynamicsMatrix: array2<real>,
    noiseMatrix: array2<real>,
    inputMatrix: array2<real>)

  /** Entry (r, c), 0 <= r, c < 12, of the per-body dynamics block
      [ I  vf·I ]
      [ 0  vf·I ]. */
  function PartDynamicsEntry(velocityFactor: real, r: int, c: int): real
  {
    if r < 6 && c < 6 then Identity(r, c)
    else if r < 6 then velocityFactor * Identity(r, c - 6)
    else if c < 6 then 0.0
    else velocityFactor * Identity(r - 6, c - 6)
  }

  /** Entry (r, c), 0 <= r < 6, 0 <= c < 6, of the pose rows of the per-body
      noise block: linear_sigma·I on the linear channels, angular_sigma·I on
      the angular channels, 0 elsewhere. */
  function PoseNoiseEntry(linearSigma: real, angularSigma: real, r: int, c: int): real
  {
    if r < 3 && c < 3 then linearSigma * Identity(r, c)
    else if 3 <= r && 3 <= c then angularSigma * Identity(r - 3, c - 3)
    else 0.0
  }

  /** Entry (r, c), 0 <= r < 12, 0 <= c < 6, of the per-body noise block: its
      velocity rows 6..11 are the pose rows 0..5 again. */
  function PartNoiseEntry(linearSigma: real, angularSigma: real, r: int, c: int): real
  {
    PoseNoiseEntry(linearSigma, angularSigma, if r < 6 then r else r - 6, c)
  }

  /** Entry (r, c) of the whole dynamics matrix A: the per-body block on each
      12×12 diagonal block, 0 outside them. */
  function DynamicsEntry(p: Parameters, r: nat, c: nat): real
  {
    if r / 12 == c / 12 then PartDynamicsEntry(p.velocityFactor, r % 12, c % 12) else 0.0
  }

  /** Entry (r, c) of the whole noise matrix B: the per-body block on block
      (12·i, 6·i) for each body i, 0 outside them. */
  function NoiseEntry(p: Parameters, r: nat, c: nat): real
  {
    if r / 12 == c / 6 then PartNoiseEntry(p.linearSigma, p.angularSigma, r % 12, c % 6) else 0.0
  }

  /** `model` is the process model of `p.partCount` bodies with the
      parameters `p`: its dimensions, and every entry of A, B and C. */
  ghost predicate IsObjectModel(model: LinearStateTransitionModel, p: Parameters)
    reads model.dynamicsMatrix, model.noiseMatrix, model.inputMatrix
  {
    && model.stateDim == 12 * p.partCount
    && model.noiseDim == 6 * p.partCount
    && model.inputDim == 1
    && model.dynamicsMatrix.Length0 == model.stateDim && model.dynamicsMatrix.Length1 == model.stateDim
    && model.noiseMatrix.Length0 == model.stateDim && model.noiseMatrix.Length1 == model.noiseDim
    && model.inputMatrix.Length0 == model.stateDim && model.inputMatrix.Length1 == model.inputDim
    && (forall r, c :: 0 <= r < model.stateDim && 0 <= c < model.stateDim ==>
          model.dynamicsMatrix[r, c] == DynamicsEntry(p, r, c))
    && (forall r, c :: 0 <= r < model.stateDim && 0 <= c < model.noiseDim ==>
          model.noiseMatrix[r, c] == NoiseEntry(p, r, c))
    && (forall r :: 0 <= r < model.stateDim ==> model.inputMatrix[r, 0] == 0.0)
  }

  /** The 12×12 dynamics template of one body: identity, then the
      pose<-velocity corner, then one scaling of the right-hand columns that
      damps both that corner and the velocity diagonal. */
  method PartDynamicsTemplate(velocityFactor: real) returns (partA: array2<real>)
    ensures fresh(partA) && partA.Length0 == 12 && partA.Length1 == 12
    ensures forall r, c :: 0 <= r < 12 && 0 <= c < 12 ==> partA[r, c] == PartDynamicsEntry(velocityFactor, r, c)
  {
    partA := new real[12, 12];
    SetIdentity(partA);
    SetTopRightCornerIdentity(partA, 6, 6);
    ScaleRightCols(partA, 6, velocityFactor);
  }

  /** The 12×6 noise template of one body: the pose rows, then the same
      rows again for the velocity. */
  method PartNoiseTemplate(linearSigma: real, angularSigma: real) returns (partB: array2<real>)
    ensures fresh(partB) && partB.Length0 == 12 && partB.Length1 == 6
    ensures forall r, c :: 0 <= r < 12 && 0 <= c < 6 ==> partB[r, c] == PartNoiseEntry(linearSigma, angularSigma, r, c)
  {
    partB := new real[12, 6];
    SetZero(partB);
    var linearBlock := ScaledIdentity(3, linearSigma);
    SetBlock(partB, 0, 0, linearBlock);
    var angularBlock := ScaledIdentity(3, angularSigma);
    SetBlock(partB, 3, 3, angularBlock);
    CopyTopRowsToBottom(partB, 6);
  }

  /** Entry (r, c) of A once the first `i` bodies have been placed on the
      diagonal of the identity matrix `setIdentity` left there. */
  function PlacedDynamicsEntry(velocityFactor: real, i: nat, r: nat, c: nat): real
  {
    if r < 12 * i && r / 12 == c / 12 then PartDynamicsEntry(velocityFactor, r % 12, c % 12) else Identity(r, c)
  }

  /** Entry (r, c) of B once the first `i` bodies have been placed in the
      zero matrix `setZero` left there. */
  function PlacedNoiseEntry(linearSigma: real, angularSigma: real, i: nat, r: nat, c: nat): real
  {
    if r < 12 * i && r / 12 == c / 6 then PartNoiseEntry(linearSigma, angularSigma, r % 12, c % 6) else 0.0
  }

  /** Copying the dynamics template to block (12·i, 12·i) places body i. */
  lemma PlaceDynamicsStep(velocityFactor: real, i: nat, r: nat, c: nat)
    ensures PlacedDynamicsEntry(velocityFactor, i + 1, r, c)
         == if 12 * i <= r < 12 * i + 12 && 12 * i <= c < 12 * i + 12
            then PartDynamicsEntry(velocityFactor, r - 12 * i, c - 12 * i)
            else PlacedDynamicsEntry(velocityFactor, i, r, c)
  {
  }

  /** Copying the noise template to block (12·i, 6·i) places body i. */
  lemma PlaceNoiseStep(linearSigma: real, angularSigma: real, i: nat, r: nat, c: nat)
    ensures PlacedNoiseEntry(linearSigma, angularSigma, i + 1, r, c)
         == if 12 * i <= r < 12 * i + 12 && 6 * i <= c < 6 * i + 6
            then PartNoiseEntry(linearSigma, angularSigma, r - 12 * i, c - 6 * i)
            else PlacedNoiseEntry(linearSigma, angularSigma, i, r, c)
  {
  }

  class ObjectTransitionModelBuilder {
    const param: Parameters

    constructor (param: Parameters)
      ensures this.param == param
    {
      this.param := param;
    }

    /** `build_model`: allocates A, B and C, fills the per-body templates and
        places one copy of each per body on the diagonal. */
    method BuildModel() returns (model: LinearStateTransitionModel)
      requires param.partCount >= 0
      ensures IsObjectModel(model, param)
      ensures fresh(model.dynamicsMatrix) && fresh(model.noiseMatrix) && fresh(model.inputMatrix)
      ensures model.dynamicsMatrix != model.noiseMatrix && model.dynamicsMatrix != model.inputMatrix
      ensures model.noiseMatrix != model.inputMatrix
    {
      var totalStateDim := param.partCount * 12;
      var totalNoiseDim := totalStateDim / 2;

      var A := new real[totalStateDim, totalStateDim];
      var B := new real[totalStateDim, totalNoiseDim];
      var C := new real[totalStateDim, 1];

      SetIdentity(A);
      SetZero(B);
      SetZero(C);

      var partA := PartDynamicsTemplate(param.velocityFactor);
      var partB := PartNoiseTemplate(param.linearSigma, param.angularSigma);

      for i := 0 to param.partCount
        modifies A, B
        invariant forall r, c :: 0 <= r < totalStateDim && 0 <= c < totalStateDim ==>
          A[r, c] == PlacedDynamicsEntry(param.velocityFactor, i, r, c)
        invariant forall r, c :: 0 <= r < totalStateDim && 0 <= c < totalNoiseDim ==>
          B[r, c] == PlacedNoiseEntry(param.linearSigma, param.angularSigma, i, r, c)
      {
        SetBlock(A, i * 12, i * 12, partA);
        SetBlock(B, i * 12, i * 6, partB);
        forall r, c | 0 <= r < totalStateDim && 0 <= c < totalStateDim
          ensures A[r, c] == PlacedDynamicsEntry(param.velocityFactor, i + 1, r, c)
        {
          PlaceDynamicsStep(param.velocityFactor, i, r, c);
        }
        forall r, c | 0 <= r < totalStateDim && 0 <= c < totalNoiseDim
          ensures B[r, c] == PlacedNoiseEntry(param.linearSigma, param.angularSigma, i + 1, r, c)
        {
          PlaceNoiseStep(param.linearSigma, param.angularSigma, i, r, c);
        }
      }
      model := LinearStateTransitionModel(totalStateDim, totalNoiseDim, 1, A, B, C);
    }

    /** `build`: the model `BuildModel` returns, handed out as the generic
        transition function. */
    method Build() returns (model: LinearStateTransitionModel)
      requires param.partCount >= 0
      ensures IsObjectModel(model, param)
      ensures fresh(model.dynamicsMatrix) && fresh(model.noiseMatrix) && fresh(model.inputMatrix)
    {
      model := BuildModel();
    }
  }
}
