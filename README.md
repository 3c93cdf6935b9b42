# deepda core in Dafny

This project models two parts of deepda, a PyTorch library for variational data assimilation.

- **`CaseBuilder`** (`deepda/builder.py`) is a validating builder. It holds one `Parameters` record and fills it through one `set_<field>` setter per field. Each setter checks the Python kind of its value. The two covariance setters also run `check_covariance_matrix`. `set_parameter` dispatches by attribute name. `set_all_parameters` validates every entry into a fresh builder and installs that record only at the end.
- **The solvers** (`deepda/variational.py`):
  - `apply_3DVar` minimises the sum, over batch elements, of a background term and an observation term.
  - `apply_4DVar` minimises `Jb + Jo`. `Jb` is the background term plus the observation term for `y[0]`. `Jo` sums, segment by segment along `time_obs`, one observation term per row kept from each propagated trajectory: `xf.size(1)` terms per segment.
  - Both run a fixed number of Adam iterations and record per-iteration diagnostics and state snapshots.

Layout:

- `wrappers.dfy`: `Option` and `Result`.
- `tensors.dfy` (`Tensors`): tensors as a shape plus row-major elements. It covers row indexing, `unsqueeze`, `t[-n:]` under Python slice rules, `linspace` over exact reals, broadcasting subtraction of 1-D tensors, and transpose.
- `values.dfy` (`Values`): Python runtime values as a tagged datatype. Each `isinstance` test becomes a tag test. `bool` passes every `int` test.
- `builder.dfy` (`Builder`):
  - the `Parameters` record and its fields;
  - `check_covariance_matrix`;
  - the effect of each setter as a function (`Assign`, `SetByName`, `ApplyEntries`, `SetAll`);
  - the class `CaseBuilder`, whose methods update its `parameters` field. Each method is proved against those functions.
- `builder_properties.dfy` (`BuilderProperties`): lemmas about the builder's functions.
- `variational.dfy` (`Variational`):
  - Both solvers as reference functions (`Run3D`, `Run4D`, with `Loss3D`, `Cost4D`, `Segments`, `SegmentTerms`).
  - The imperative methods with the source's loops. The candidate `new_x0` is an `array<real>` that the Adam step updates in place. Each method is proved equal to its function.
- `variational_properties.dfy` (`VariationalProperties`): lemmas about the solver functions, including a hand-computed 4D-Var toy window.

Some numerics are black boxes: the observation operator `H`, the forward model `M`, the quadratic form `v @ solve(A, v)`, the gradient norm, the Adam update, `allclose` and `matrix_rank`. They are parameters: the datatypes `Numerics`, `LinAlg` and the `M` field of `Problem4D`. Every cost is exact real arithmetic over them.

A loss accumulator starts as the Python integer `0` and becomes a tensor at its first `+=`. The datatype `Acc` (`IntZero | Sum`) models this. Calling `.backward()` or `.item()` on the integer raises `AttributeError`, and the solvers surface that as `NoBackward` or `NoItem`.

`Jo` gets `xf.size(1)` terms per observation time, not one per sub-step (`deepda/variational.py:109-112`). Each segment keeps the last `xf.size(1)` rows of the propagated trajectory and adds one term per kept row. It then propagates the whole kept slice into the next segment. `JoTermCount` states the resulting count, `(L-1) * c`, when `xb` has `c >= 1` rows and `M` maps every state with `c` rows to an output with `size(1) == c` (`KeepsRows`). Then every kept slice again has `c` rows. The identity model of the toy window meets this with `c = 1` (`ToyCount`).

`apply_4DVar` does not check the length of `time_obs`. With one entry, `loss_Jo` stays the integer `0`, so the first iteration always raises. If the learning rate is not negative and `Jb` is defined, the error is the AttributeError at `loss_Jo.item()` (`deepda/variational.py:124`). `SingleTimeWindow` states this for `max_iterations >= 1`.

Both solvers build `torch.optim.Adam` before the loop, and Adam raises ValueError for a negative learning rate (`deepda/variational.py:31`, `deepda/variational.py:96`). Every `torch.linalg.solve(A, v)` in a cost raises RuntimeError unless `A` is n-by-n for a vector `v` of length n. The model reports both (`InvalidLearningRate`, `SolveError`).

## Model

| member | source | states |
|---|---|---|
| Builder.FieldNamed | deepda/builder.py:40-49 | The field an attribute name denotes, if any. A returned field has exactly that name, and `None` means no field has it. |
| Builder.With | deepda/builder.py:51-219 | Overwriting field `f` gives `f` the new value and leaves every other field as it was. |
| Builder.CheckCovarianceMatrix | deepda/builder.py:81-94 | Returns normally iff the matrix is 2-D and square, symmetric, and of full rank. Each error means exactly that the earlier checks passed and its own check failed: not square, then not symmetric, then singular. |
| BuilderProperties.AsDictReadsBack | deepda/builder.py:31-32 | `asdict(record)` has one entry per field, in field order. Each entry's key looks up back to its own field, and its value is that field's value in the record. |
| Builder.CaseBuilder.constructor | deepda/builder.py:17-26 | A new builder holds the case name and a fresh `Parameters()`. |
| Builder.CaseBuilder.Create | deepda/builder.py:17-26 | Construction with parameters raises exactly what `set_all_parameters` raises, and otherwise holds the record that `SetAll` computes. |
| Builder.CaseBuilder.SetAllParameters | deepda/builder.py:28-37 | If some entry raises, that error is returned and the record is unchanged. Otherwise the record becomes the entries applied to a fresh `Parameters()`, and the builder returns itself. |
| Builder.CaseBuilder.SetParameter | deepda/builder.py:39-49 | AttributeError for a non-attribute name. A second AttributeError for an attribute that has no setter. Otherwise it has exactly the effect of that field's setter. |
| Builder.CaseBuilder.SetAlgorithm | deepda/builder.py:51-54 | Never raises. It stores an `Algorithms` member, ignores any other value, and returns the builder. |
| Builder.CaseBuilder.SetDevice | deepda/builder.py:56-59 | Never raises. It stores a `Device` member, ignores any other value, and returns the builder. |
| Builder.CaseBuilder.SetForwardModel | deepda/builder.py:61-68 | TypeError and no change for a non-callable. Otherwise it stores the value. |
| Builder.CaseBuilder.SetObservationModel | deepda/builder.py:70-79 | TypeError and no change unless the value is a tensor or a callable. Otherwise it stores the value. |
| Builder.CaseBuilder.SetBackgroundCovarianceMatrix | deepda/builder.py:96-108 | TypeError for a non-tensor, and the covariance check's LinAlgError for an invalid matrix. In both cases the record is unchanged. Otherwise it stores the matrix. |
| Builder.CaseBuilder.SetObservationCovarianceMatrix | deepda/builder.py:110-123 | The same as the background covariance setter, for `R`. |
| Builder.CaseBuilder.SetBackgroundState | deepda/builder.py:125-134 | TypeError and no change for a non-tensor. Otherwise it stores the value. |
| Builder.CaseBuilder.SetObservations | deepda/builder.py:136-143 | TypeError and no change for a non-tensor. Otherwise it stores the value. |
| Builder.CaseBuilder.SetObservationTimeSteps | deepda/builder.py:145-157 | TypeError and no change unless the value is a list, tuple, ndarray or tensor. Otherwise it stores the value. |
| Builder.CaseBuilder.SetGap | deepda/builder.py:159-163 | TypeError and no change unless the value is an int (a bool counts). Otherwise it stores the value. |
| Builder.CaseBuilder.SetNumSteps | deepda/builder.py:165-171 | TypeError and no change unless the value is an int. Otherwise it stores the value. |
| Builder.CaseBuilder.SetNumEnsembles | deepda/builder.py:173-180 | TypeError and no change unless the value is an int. Otherwise it stores the value. |
| Builder.CaseBuilder.SetStartTime | deepda/builder.py:182-189 | TypeError and no change unless the value is an int or a float. Otherwise it stores the value. |
| Builder.CaseBuilder.SetArgs | deepda/builder.py:191-195 | TypeError and no change unless the value is a tuple. Otherwise it stores the value. |
| Builder.CaseBuilder.SetMaxIterations | deepda/builder.py:197-204 | TypeError and no change unless the value is an int. Otherwise it stores the value. |
| Builder.CaseBuilder.SetLearningRate | deepda/builder.py:206-213 | TypeError and no change unless the value is an int or a float. Otherwise it stores the value. |
| Builder.CaseBuilder.SetLogging | deepda/builder.py:215-219 | TypeError and no change unless the value is a bool. Otherwise it stores the value. |
| BuilderProperties.FieldNameInjective | deepda/builder.py:39-49 | No two fields share an attribute name, so name dispatch reaches one setter. |
| BuilderProperties.FieldNamedRoundTrip | deepda/builder.py:39-49 | Looking up a field's own name gives back that field. |
| BuilderProperties.SetParameterUnknown | deepda/builder.py:40-43 | `set_parameter` raises the "does not exist" AttributeError iff the name is not an attribute of `Parameters`. |
| BuilderProperties.SetParameterNoSetter | deepda/builder.py:44-48 | It raises the "setter not found" AttributeError iff the name is a non-field attribute of the record (a dunder attribute). |
| BuilderProperties.SetParameterField | deepda/builder.py:44-49 | A field's own name has exactly that field's setter's effect. |
| BuilderProperties.AssignFrame | deepda/builder.py:51-219 | A setter succeeds iff its guard admits the value. On success only its own field can change, and it changes only when the value is stored. |
| BuilderProperties.EnumSettersNeverRaise | deepda/builder.py:51-59 | `set_algorithm` and `set_device` always return. A non-member leaves the record unchanged. |
| BuilderProperties.CovarianceSetters | deepda/builder.py:81-123 | Both covariance setters: TypeError for a non-tensor, then the check's errors in order. They succeed iff the value is a valid covariance tensor, and then store it. |
| BuilderProperties.ScalarSetters | deepda/builder.py:159-219 | Each scalar setter succeeds iff the value has the setter's accepted kinds. It otherwise raises TypeError naming its field, and it changes only its own field. |
| BuilderProperties.ObservationTimeStepsSetter | deepda/builder.py:145-157 | `set_observation_time_steps` succeeds iff the value is a list, tuple, ndarray or tensor. Otherwise it raises TypeError. |
| BuilderProperties.ApplyEntriesRaises | deepda/builder.py:34-35 | A failing loop fails with the error of the first entry whose setter raises, after all earlier entries succeeded. |
| BuilderProperties.ApplyEntriesValue | deepda/builder.py:33-36 | After a successful loop, each field agrees with the reference definition `LastStored`: the last stored entry that names the field, or its initial value. |
| BuilderProperties.LastStoredAbsent | deepda/builder.py:34-35 | A field that no entry names keeps its initial value. |
| BuilderProperties.LastStoredUnique | deepda/builder.py:34-35 | A field named by exactly one entry takes that entry's effect. |
| BuilderProperties.SetAllUntouched | deepda/builder.py:23-36 | After a successful `set_all_parameters` from a dict, a field the dict does not name holds its `Parameters()` default, not its previous value. |
| BuilderProperties.SetAllFromDict | deepda/builder.py:28-37 | After a successful `set_all_parameters` from a dict, each field holds the last stored value named for it, else its default. |
| BuilderProperties.AllFieldsDistinct | deepda/builder.py:31-32 | The field order used by `asdict` lists each field once. |
| BuilderProperties.SetAllFromRecord | deepda/builder.py:28-37 | From a record, each field keeps the record's value. The exception is an enum field with a non-member value, which falls back to its default. |
| Tensors.Row | deepda/variational.py:37-38 | `t[i]` has the shape of `t` without its first axis. Its elements are the `i`-th block of `RowWidth(t)` consecutive elements of `t`, in order. |
| Tensors.Unsqueeze | deepda/variational.py:20-21 | `unsqueeze(0)` adds a leading axis of size 1 over the same elements, and its row 0 is the original tensor. |
| Tensors.KeepFrom | deepda/variational.py:110 | The first row that `[-n:]` keeps lies inside the axis. |
| Tensors.TakeLast | deepda/variational.py:110 | `t[-n:]` keeps `n` rows, or all rows when `n` is 0 or exceeds the axis, and keeps the row shape. |
| Tensors.TakeLastRow | deepda/variational.py:110-112 | Row `j` of `t[-n:]` is row `KeepFrom + j` of `t`. |
| Tensors.Linspace | deepda/variational.py:105-107 | `steps` points that start at `start`, end at `end`, and are evenly spaced. |
| Tensors.Sub | deepda/variational.py:38-39 | Subtraction of 1-D tensors is defined iff the shapes broadcast. The result has the broadcast length. It is element-wise for equal lengths, and a length-1 operand is subtracted from, or subtracts, every element of the other. |
| Tensors.Transpose | deepda/builder.py:88 | `m.T` of a square matrix is square of the same size, and entry `(i, j)` is `m[j][i]`. |
| Tensors.TransposeInvolution | deepda/builder.py:88 | Transposing twice gives back the matrix, so `allclose(m, m.T)` compares `m` with its own mirror image. |
| Variational.AdamStep | deepda/variational.py:122 | The optimiser step yields a candidate of the same size. |
| Variational.AdamUpdate | deepda/variational.py:50 | `trainer.step()` overwrites the candidate array in place with `AdamStep`. |
| Variational.Quad | deepda/variational.py:41-42 | `v @ solve(A, v)` is defined iff `A` is n-by-n for a vector of length n. Otherwise it is `solve`'s RuntimeError. |
| Variational.Batched | deepda/variational.py:20-21 | Keeps the elements. A 1-D tensor becomes a batch of one whose only row is the original tensor. Any other tensor is unchanged. |
| Variational.BatchLoss | deepda/variational.py:35-43 | The batch loop's `loss`, or the first exception, equals the reference `Loss3D`. |
| Variational.Iteration3D | deepda/variational.py:34-54 | One 3D-Var iteration overwrites the candidate array with the Adam step and appends it to the candidate history. It appends the loss at the previous candidate to `J`, that candidate's gradient norm to `J_grad_norm`, and the new candidate in `xb`'s shape to `background_states`. It advances `Iterate3D` by one iteration or raises its error. |
| Variational.Apply3DVar | deepda/variational.py:9-56 | `apply_3DVar` returns or raises exactly what `Run3D` says, including Adam's ValueError for a negative learning rate, which comes before any IndexError. |
| Variational.SegmentRows | deepda/variational.py:111-112 | The inner loop of one segment adds, in row order, the `Jo` term of each kept row to `loss_Jo`, matching `SegmentTerms`, or stops at `SegmentTerms`' first exception. |
| Variational.SegmentLoop | deepda/variational.py:100-113 | The segment loop's `loss_Jo`, or the first exception, equals the `Jo` terms of `Segments` added to the integer 0. |
| Variational.EvaluateCost4D | deepda/variational.py:100-114 | `loss_Jb` and `loss_Jo`, or the first exception, as `Cost4D` gives them. |
| Variational.Iteration4D | deepda/variational.py:98-127 | One 4D-Var iteration overwrites the candidate array with the Adam step and appends it to the history. It appends the previous candidate's `Jb`, the sum of its non-empty list of `Jo` terms, and its gradient norm, and it snapshots the new candidate in `xb`'s shape. It advances `Iterate4D` by one iteration or raises its error. |
| Variational.Apply4DVar | deepda/variational.py:59-129 | `apply_4DVar` returns or raises exactly what `Run4D` says, including Adam's ValueError for a negative learning rate. |
| Variational.TotalAppend | deepda/variational.py:112 | `loss_Jo += term` on the accumulator matches appending the term to the term list: the integer 0 becomes the term, and a sum grows by the term. |
| VariationalProperties.Iterate3DGrowth | deepda/variational.py:33-54 | Each diagnostics list gains exactly one entry per remaining iteration, and earlier entries are kept. Every new snapshot has `xb`'s shape. |
| VariationalProperties.Run3DDiagnostics | deepda/variational.py:25-56 | On success `max_iterations >= 1`, and `J`, `J_grad_norm` and `background_states` all have length `max_iterations`. The returned state is the last snapshot and has `xb`'s shape. |
| VariationalProperties.Loss3DRaises | deepda/variational.py:36-43 | The batch loop can raise only IndexError, the broadcasting RuntimeError, or `solve`'s RuntimeError. |
| VariationalProperties.Iterate3DRaises | deepda/variational.py:33-54 | The 3D-Var loop can raise only those errors or the AttributeError of `backward` on the integer 0. |
| VariationalProperties.Run3DNoIterations | deepda/variational.py:31-56 | `apply_3DVar` fails with an unbound `latest_x0` iff the learning rate is not negative, `xb` has rank at least 1, and `max_iterations <= 0`. |
| VariationalProperties.Run3DLearningRate | deepda/variational.py:31 | `apply_3DVar` raises Adam's ValueError iff the learning rate is negative. |
| VariationalProperties.Run3DFirstCost | deepda/variational.py:23-45 | The first recorded `J` is the loss at the candidate equal to `xb`. |
| VariationalProperties.LossAtBackground | deepda/variational.py:36-43 | With `H` the identity and `y = xb`, if the quadratic forms of `B` and `R` vanish on zero vectors, every batch term at the background is zero, so the loop adds nothing. The loop succeeds whenever `B` and `R` are square of the batch width. |
| VariationalProperties.ZeroInitialCost3D | deepda/variational.py:23-45 | With `H` the identity and `y = xb`, the first recorded `J` is 0 when the quadratic forms of `B` and `R` vanish on zero vectors. |
| VariationalProperties.SingleState3D | deepda/variational.py:20-43 | For 1-D `xb` and `y`, the 3D-Var loss is the same background-plus-observation expression as 4D-Var's `Jb`. |
| VariationalProperties.Loss3DIsSum | deepda/variational.py:36-43 | The batch loop succeeds iff every batch term is defined. Its value is then the sum of the terms (background plus observation per element). |
| VariationalProperties.SegmentTermsValues | deepda/variational.py:111-112 | The inner loop appends exactly `count` terms after those already present. Term `j` is `Jo(xp[j], y[k, j])`. |
| VariationalProperties.SegmentsStep | deepda/variational.py:104-113 | For any `M`, a successful segment has an output `xf` of rank at least 2 on the segment's grid and keeps its last `xf.size(1)` rows. Its inner loop appends `xf.size(1)` terms, and the loop continues from `time_obs[k]` with the kept slice. |
| VariationalProperties.SegmentTermsCovers | deepda/variational.py:111-112 | An inner loop over `count >= 1` rows succeeds only if the kept slice has at least `count` rows. |
| VariationalProperties.SegmentsChain | deepda/variational.py:104-113 | When `M` keeps `c >= 1` rows, a segment started from `c` rows adds `c` terms and leaves a kept slice of `c` rows. |
| VariationalProperties.SegmentsCount | deepda/variational.py:104-113 | When `M` keeps `c >= 1` rows and the chained state has `c` rows, the remaining segments add `c` terms each. |
| VariationalProperties.JoTermCount | deepda/variational.py:100-113 | When `xb` has `c >= 1` rows and `M` keeps `c` rows, one successful cost evaluation yields `(len(time_obs) - 1) * c` `Jo` terms. |
| VariationalProperties.Cost4DBackground | deepda/variational.py:84-101 | `Jb` at a candidate is the background term plus the observation term for `y[0]`. |
| VariationalProperties.Iterate4DGrowth | deepda/variational.py:98-127 | Each of `Jb`, `Jo`, `J_grad_norm` and `background_states` gains one entry per remaining iteration, and earlier entries are kept. New snapshots have `xb`'s shape. |
| VariationalProperties.Run4DDiagnostics | deepda/variational.py:77-129 | On success all four diagnostics lists have length `max_iterations`. The returned state is the last snapshot and has `xb`'s shape. |
| VariationalProperties.SegmentTermsRaises | deepda/variational.py:111-112 | The inner loop can raise only IndexError, the broadcasting RuntimeError, or `solve`'s RuntimeError. |
| VariationalProperties.SegmentsRaises | deepda/variational.py:104-113 | The segment loop can also raise the RuntimeError of `linspace` with a negative point count. |
| VariationalProperties.Iterate4DRaises | deepda/variational.py:98-127 | The 4D-Var loop raises only those errors or the AttributeError of `item` on the integer 0. |
| VariationalProperties.Run4DNoIterations | deepda/variational.py:96-129 | `apply_4DVar` fails with an unbound `latest_x0` iff the learning rate is not negative and `max_iterations <= 0`. |
| VariationalProperties.Run4DLearningRate | deepda/variational.py:96 | `apply_4DVar` raises Adam's ValueError iff the learning rate is negative. |
| VariationalProperties.Iterate4DFirst | deepda/variational.py:100-124 | An iteration's `Jb` and `Jo` entries are the two parts of the cost at that iteration's candidate. |
| VariationalProperties.Run4DFirstCost | deepda/variational.py:75-124 | The first recorded `Jb` and `Jo` are the cost at the candidate equal to `xb`. |
| VariationalProperties.SingleTimeWindow | deepda/variational.py:103-124 | With one observation time and at least one iteration, `apply_4DVar` always raises. If the learning rate is not negative and the cost itself is defined, the error is the AttributeError of `loss_Jo.item()`. |
| VariationalProperties.IdentityPropagator | deepda/variational.py:108 | The identity forward model returns one row per grid point, and each row equals the state. |
| VariationalProperties.ToyCount | deepda/variational.py:104-113 | In the toy window, any successful cost evaluation has exactly two `Jo` terms, whatever the numerics. |
| VariationalProperties.ToyWindow | deepda/variational.py:84-113 | A toy window: scalar state, `B = R = 1`, `xb = 0`, `y = [0, 1, 1]`, `time_obs = [0, 1, 2]`, `gap = 1`, identity `M` and `H`. At candidate `c`, `Jb = c² + c²` and `Jo` is `(1 - c)²` twice. |

## Left out

- Printing. The per-iteration `print` lines (`deepda/variational.py:46-49, 117-121`) are output only. The `logging` argument of both solvers is accepted and has no effect in the model.
- `execute`, `get_results_dict`, `get_result`, `get_parameters_dict` and `__repr__` (`deepda/builder.py:221-243`). They delegate to `Executor` or format text. `deepda/executor.py` is not part of this model. For the same reason the constructor does not create an `Executor`.
- The `Parameters` dataclass (`deepda/executor.py`) is not part of this model. The record is assumed to have exactly the 17 fields that have setters. Their defaults are modelled as `None`. No lemma uses the value of a default: each speaks of `Defaults` only as the record `set_all_parameters` starts from.
- The field order `AllFields` is assumed to be the declaration order of `Parameters`. `asdict` follows that order, so it decides which invalid field `set_all_parameters` reports first for a record.
- The set of non-field attributes of a `Parameters` instance is a fixed list of dunder names. The model cannot see every attribute Python reports.
- Enum membership (`value in Algorithms`). The model stores only enum members and ignores every other value. Neither Python 3.12's match of a raw member value nor the TypeError that older versions raise for a non-member is modelled.
- Builder.IsSymmetric and Builder.HasFullRank: `torch.allclose` tolerances and the SVD-based `matrix_rank` are black boxes (`LinAlg`), applied to the exact transpose.
- Reverse-mode differentiation, `torch.optim.Adam` and `torch.norm` are black boxes. Nothing is claimed about the optimisation itself, such as whether `J` decreases over the iterations.
- Floating point. Costs are exact reals. `torch.linalg.solve` is a black-box quadratic form, and its singular-matrix error is not modelled. `linspace` uses exact reals.
- Variational.Quad: a `B` or `R` with more than two dimensions is reported as `solve`'s RuntimeError. torch accepts a batch of matrices there, and the shapes would fail later, at `@` or `backward`, or not at all.
- Adam's other hyperparameters (betas, eps, weight decay) keep their defaults, so the learning rate is the only argument checked when the optimiser is built.
- The solvers' default arguments (`max_iterations=1000`, `learning_rate=1e-3`, `logging=True`, and for `apply_4DVar` `args=(None,)`). The model has no default arguments, so every caller passes all of them.
- Device placement (`deepda/variational.py:97, 106`).
- Aliasing. Tensors are values, so `xb` cannot change and each snapshot is a separate copy. Only the candidate `new_x0` is a mutable array. Modifying a returned tensor from outside cannot be expressed.
- Determinism needs no lemma: both solvers are proved equal to functions of their inputs and the black boxes.
- Variational.Iteration4D: on the `loss_Jo.item()` failure, the model raises before the Adam step rather than after it. The step's effect is discarded with the exception either way.
- Forward and observation models that break the gradient path are not represented. The gradient is a black box of the candidate.
