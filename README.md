# Object transition model builder

A Dafny model of the process-model builder in dbot (Bayesian object
tracking). The builder makes the linear model
`next = A·state + B·noise + C·input` for `part_count` rigid bodies that move
independently. The state of one body has 12 entries: 6 pose entries, then 6
velocity entries. Its noise has 6 entries: 3 linear, then 3 angular.

- **A** (12n×12n) is block-diagonal. Each 12×12 block is `[I, vf·I; 0, vf·I]`.
  This is a damped constant-velocity model, with `vf` = `velocity_factor`.
- **B** (12n×6n) has one 12×6 block per body. Its pose rows are
  `diag(linear_sigma·I3, angular_sigma·I3)`, and its velocity rows repeat
  the pose rows.
- **C** (12n×1) is zero.

Files:

- `object_state_trait.dfy`: `ObjectStateTrait.NoiseDim`. It is half the
  compile-time state size, or Eigen's `Dynamic` marker (−1). C++ integer
  division is modelled as truncation toward zero.
- `dense_matrix.dfy`: the Eigen operations the builder applies, as in-place
  methods on `array2<real>`. Each method states the new matrix in terms of
  the old one.
- `transition_model_builder.dfy`: the `Parameters` record, the model
  record, and an entry-wise specification of A and B (`DynamicsEntry`,
  `NoiseEntry`). It also holds the per-body templates and the class
  `ObjectTransitionModelBuilder`. Its `BuildModel` follows the source's
  steps in order: allocate, `setIdentity`/`setZero`, build the templates,
  then loop over the bodies and copy the blocks in. The loop invariant says
  that, before iteration `i`, bodies `0..i−1` are placed and every other entry still holds its
  initial value.
- `transition_model_properties.dfy`: lemmas about the specification. They
  cover block placement, zero blocks between bodies, which parameters can
  change which entries, the pose/velocity noise coupling, and determinism.
  Three further lemmas use the standard matrix–vector product. They show that
  each body's next state depends only on that body's own state and noise,
  and that a pose entry and its velocity entry receive the same noise.

A block-diagonal A would usually be built from zero; the code starts it
with `setIdentity()` instead
(include/dbot/tracker/builder/object_transition_model_builder.hpp:93), and
the model does the same. The
loop invariant carries the identity entries that have not been overwritten
yet. The final A still equals the block-diagonal specification, because the
diagonal blocks tile the whole diagonal and the identity entries off the
diagonal are already 0.

## Model

| member | source | states |
|---|---|---|
| `ObjectStateTrait.NoiseDim` | include/dbot/tracker/builder/object_transition_model_builder.hpp:39-40 | a fixed non-negative size s gives ⌊s/2⌋ (so 2·r ≤ s ≤ 2·r+1); `Dynamic` (−1) gives `Dynamic`; other negative values follow C++ truncating division |
| `ObjectStateTrait.NoiseDimDynamicIff` | include/dbot/tracker/builder/object_transition_model_builder.hpp:39-40 | for every size Eigen can give a state, the noise size is `Dynamic` exactly when the state size is |
| `ObjectStateTrait.NoiseDimOfBodies` | include/dbot/tracker/builder/object_transition_model_builder.hpp:81-82 | a fixed state of n bodies (12·n entries) has 6·n noise dimensions, which equals the builder's `total_noise_dim` |
| `DenseMatrix.SetIdentity` | include/dbot/tracker/builder/object_transition_model_builder.hpp:93 | after `setIdentity` every entry is 1 on the main diagonal and 0 elsewhere |
| `DenseMatrix.SetZero` | include/dbot/tracker/builder/object_transition_model_builder.hpp:94-95 | after `setZero` every entry is 0 |
| `DenseMatrix.SetTopRightCornerIdentity` | include/dbot/tracker/builder/object_transition_model_builder.hpp:98 | the top-right rows×cols corner becomes an identity block; every other entry is unchanged |
| `DenseMatrix.ScaleRightCols` | include/dbot/tracker/builder/object_transition_model_builder.hpp:99 | every entry of the last cols columns is multiplied by the factor; the other columns are unchanged |
| `DenseMatrix.ScaledIdentity` | include/dbot/tracker/builder/object_transition_model_builder.hpp:102-105 | a new n×n matrix equal to factor·I |
| `DenseMatrix.SetBlock` | include/dbot/tracker/builder/object_transition_model_builder.hpp:110-111 | the block at (r0, c0) becomes a copy of the source matrix; every entry outside it is unchanged |
| `DenseMatrix.CopyTopRowsToBottom` | include/dbot/tracker/builder/object_transition_model_builder.hpp:106 | each of the last k rows becomes a copy of the matching row among the first k; the other rows are unchanged |
| `TransitionModelBuilder.PartDynamicsTemplate` | include/dbot/tracker/builder/object_transition_model_builder.hpp:97-99 | identity, then the top-right identity, then scaling of the right 6 columns, gives exactly the block [I, vf·I; 0, vf·I] |
| `TransitionModelBuilder.PartNoiseTemplate` | include/dbot/tracker/builder/object_transition_model_builder.hpp:101-106 | zero, two scaled 3×3 identity blocks, then the row copy, gives exactly the 12×6 block whose rows 0–5 are diag(linear_sigma·I3, angular_sigma·I3) and whose rows 6–11 repeat rows 0–5 |
| `TransitionModelBuilder.PlaceDynamicsStep` | include/dbot/tracker/builder/object_transition_model_builder.hpp:110 | copying the template to block (12·i, 12·i) turns "bodies 0..i−1 placed on the identity" into "bodies 0..i placed" |
| `TransitionModelBuilder.PlaceNoiseStep` | include/dbot/tracker/builder/object_transition_model_builder.hpp:111 | copying the template to block (12·i, 6·i) turns "bodies 0..i−1 placed on zero" into "bodies 0..i placed" |
| `TransitionModelBuilder.ObjectTransitionModelBuilder.constructor` | include/dbot/tracker/builder/object_transition_model_builder.hpp:70 | the builder keeps the parameters it is given |
| `TransitionModelBuilder.ObjectTransitionModelBuilder.BuildModel` | include/dbot/tracker/builder/object_transition_model_builder.hpp:79-119 | state dim 12·n, noise dim 6·n, input dim 1; A is 12n×12n, B is 12n×6n and C is 12n×1; every entry of A equals `DynamicsEntry`, every entry of B equals `NoiseEntry`, C is 0; the three matrices are newly allocated, distinct arrays |
| `TransitionModelBuilder.ObjectTransitionModelBuilder.Build` | include/dbot/tracker/builder/object_transition_model_builder.hpp:71-77 | returns a model with the same dimensions and entries as `BuildModel`, on newly allocated arrays |
| `TransitionModelProperties.DynamicsBlockOnDiagonal` | include/dbot/tracker/builder/object_transition_model_builder.hpp:108-110 | for each body i, the block of A at (12·i, 12·i) is the per-body dynamics block |
| `TransitionModelProperties.DynamicsZeroAcrossBodies` | include/dbot/tracker/builder/object_transition_model_builder.hpp:93 | every block of A between two different bodies is zero, although A starts as identity |
| `TransitionModelProperties.NoiseBlockOnDiagonal` | include/dbot/tracker/builder/object_transition_model_builder.hpp:108-111 | for each body i, the block of B at (12·i, 6·i) is the per-body noise block |
| `TransitionModelProperties.NoiseZeroAcrossBodies` | include/dbot/tracker/builder/object_transition_model_builder.hpp:94 | every block of B between a body and another body's noise is zero |
| `TransitionModelProperties.PartDynamicsQuadrants` | include/dbot/tracker/builder/object_transition_model_builder.hpp:97-99 | the per-body dynamics block has top-left I, top-right vf·I, bottom-right vf·I and bottom-left 0 |
| `TransitionModelProperties.PartNoiseRows` | include/dbot/tracker/builder/object_transition_model_builder.hpp:101-106 | pose row j of the per-body noise block has linear_sigma (j < 3) or angular_sigma (j ≥ 3) at column j and 0 elsewhere; velocity row j+6 equals pose row j |
| `TransitionModelProperties.SigmasNeverAffectDynamics` | include/dbot/tracker/builder/object_transition_model_builder.hpp:97-99 | two parameter sets with the same velocity_factor give the same A |
| `TransitionModelProperties.VelocityFactorOnlyInRightColumns` | include/dbot/tracker/builder/object_transition_model_builder.hpp:99 | changing only velocity_factor changes A only in the right 6 columns of a diagonal block, and never changes B |
| `TransitionModelProperties.LinearSigmaOnlyInLinearChannels` | include/dbot/tracker/builder/object_transition_model_builder.hpp:102-103 | changing only linear_sigma changes B only on the linear 3×3 channels of a body's own block, in its pose and velocity rows |
| `TransitionModelProperties.AngularSigmaOnlyInAngularChannels` | include/dbot/tracker/builder/object_transition_model_builder.hpp:104-105 | changing only angular_sigma changes B only on the angular 3×3 channels of a body's own block, in its pose and velocity rows |
| `TransitionModelProperties.VelocityRowCopiesPoseRow` | include/dbot/tracker/builder/object_transition_model_builder.hpp:106 | in the whole B, row 12·i+j+6 equals row 12·i+j for j < 6 |
| `TransitionModelProperties.BuildIsDeterministic` | include/dbot/tracker/builder/object_transition_model_builder.hpp:79-119 | any two models built from the same parameters have the same dimensions and the same entries |
| `TransitionModelProperties.OneBodyExample` | include/dbot/tracker/builder/object_transition_model_builder.hpp:97-106 | for one body with sigmas 0.1 and 0.2 and velocity_factor 0.9, the quadrants of A are I, 0.9·I, 0 and 0.9·I, and B holds 0.1 and 0.2 on the diagonal of its pose and velocity rows |
| `TransitionModelProperties.BodiesEvolveIndependently` | include/dbot/tracker/builder/object_transition_model_builder.hpp:108-110 | entry r of A·x depends only on the 12 state entries of r's own body |
| `TransitionModelProperties.NoiseOfOtherBodiesIgnored` | include/dbot/tracker/builder/object_transition_model_builder.hpp:108-111 | entry r of B·w depends only on the 6 noise entries of r's own body |
| `TransitionModelProperties.PoseAndVelocityShareNoise` | include/dbot/tracker/builder/object_transition_model_builder.hpp:106 | the same noise sample perturbs pose entry 12·i+j and velocity entry 12·i+j+6 by the same amount |

## Left out

- `fl::LinearStateTransitionModel` belongs to a library that is not shown. Its constructor and `create_*_matrix` are modelled as allocating arrays of the right sizes. Its setters (`dynamics_matrix`, `noise_matrix`, `input_matrix`) are modelled as building the record. Its state update is not modelled. `DynamicsRowTimes` and `NoiseRowTimes` are the textbook matrix–vector product, used only to state what the block structure implies.
- The `shared_ptr` / `static_pointer_cast` in `build` is ownership glue with no behaviour. `Build` returns the same record.
- Floating point: the scalars are `real`. The code only multiplies identity entries by a scalar and copies values, so no result depends on rounding.
- `BuildModel`: `part_count * 12` in C++ `int` could overflow for very large part counts. The model uses unbounded integers.
- `BuildModel`: requires `part_count >= 0`. With a negative count, Eigen refuses the matrix sizes, so the model does not cover that case. The builder itself validates nothing, and no error path exists for negative sigmas or any `velocity_factor`.
- `NoiseDim` is about Eigen's compile-time sizes. The choice between fixed-size and dynamic matrices is not modelled beyond this arithmetic.
- `DenseMatrix.CopyTopRowsToBottom`: requires that the two row ranges do not overlap. This always holds for the 12-row template, where each range is 6 rows.
- src/pose_tracking_interface/trackers/fukf_test_tracker.cpp is not part of this model. It is ROS plumbing: parameter reading, mesh loading, rendering, locking, image conversion and the filter's predict step.
