# FactorAnalysis pipeline model

A Dafny model of the `FactorAnalysis` object of `fa_kit`, with proofs about it. The object is a
small state machine over ten nullable fields:

- `data_covar` and `noise_covar`;
- the `data_opts`, `retention_opts` and `rotation_opts` dictionaries;
- `comps_raw`, `comps_paf` and `comps_rot`;
- `props_raw` and `retain_idx`.

It loads data either per sample or as a ready-made association matrix, validates a noise
covariance, then extracts, retains, re-extracts (principal axis factoring) and rotates components.
Last, it scores new data against the preferred component matrix.

Layout:

- `wrappers.dfy`: `Option` and `Result`.
- `exceptions.dfy`: the exceptions the object raises, as values, and `Outcome` for methods that
  return nothing.
- `matrices.dfy`: real matrices and the numpy expressions the pipeline evaluates. These are column
  means, broadcasting subtraction and division, `X.T.dot(X) / (n - 1)` and `a.dot(b)`, plus the
  lemmas about them.
- `in_place.dfy`: the in-place numpy statements (`a -= v`, `a /= v`, `a /= v.T`) and
  `array.copy()`, as loops over an `array2<real>`. Each is proved equal to the matrix function of
  the same operation.
- `labels.dfy`: `_cleanup_labels` and the `labels_dict` comprehension.
- `factor_analysis.dfy`: the class `FactorAnalysis` and the pure transition functions on
  `ModelState` that its methods are proved against.
  - `ModelState` is a snapshot of the ten fields.
  - Each state-changing method is proved equal to its transition function. The constructor gives
    `InitialState`, and `AddNoiseCov`, which changes nothing, states its outcomes directly.
  - Each transition function's contract states what the step promises: the order of its checks,
    its defaults, and what it leaves unchanged.
  - `Consistent` is the invariant every method keeps (`Valid()` on the object).

Python exceptions are `Error` values. A dictionary key that was never written reads as
`KeyError`, because a fresh object has empty dictionaries. Numerical collaborators whose code is
not part of this model are function parameters. Each returns `None` when it raises, and the model
then reports `CollaboratorFailed`. These collaborators are:

- extraction;
- the four retention rules;
- `BrokenStick`;
- principal axis factoring;
- the rotators.

`np.sqrt` is not available on reals either, so the scale vector is a parameter. A precondition
requires it to be the non-negative root that the source computes: `IsRootOfDiagonal` on the
covariance path, `IsRootMeanSquare` of the working data on the sample path.

Four behaviours of the code worth knowing, all of which the model keeps:

- Re-running `find_comps_to_retain` does not clear `comps_paf` or `comps_rot`.
- A failing retention or rotation call has already overwritten the recorded `method` key.
- `rotate_components` rotates the whole of `comps_raw`, not only the retained columns, when there
  is no PAF result.
- With `preproc_demean` and `preproc_scale` both on, the `load_data` docstring promises a
  correlation matrix, but every diagonal entry of the stored matrix is `n / (n - 1)` for `n`
  samples. The scale averages the squares over `n`, while the covariance divides their sum by
  `n - 1`. `ScaledSampleCovarianceDiagonal` proves this. `ScaledSampleGramOverRowsIsUnitDiagonal`
  proves that dividing by `n` instead gives the unit diagonal. The stored matrix is the
  correlation matrix times `n / (n - 1)`. Its eigenvectors are therefore the same, and so are the
  proportions of variance computed from it.

## Model

| member | source | states |
|---|---|---|
| Labels.DefaultLabels | fa_kit/factor_analysis.py:83 | the positional labels `0 .. p-1`, one per feature |
| Labels.CleanupLabels | fa_kit/factor_analysis.py:73-85 | no labels give `0 .. p-1`; a list of length p comes back unchanged; any other length raises the label-count `ValueError` |
| Labels.LabelsDict | fa_kit/factor_analysis.py:180 | the keys are exactly `0 .. len(labels)-1` and key i maps to `labels[i]` |
| Labels.LabelsDictDeterminesLabels | fa_kit/factor_analysis.py:209 | two label lists with the same dictionary are equal, so the dictionary loses nothing |
| Wrappers.Option.GetOr | fa_kit/factor_analysis.py:285-290 | `kwargs.get(key, default)`: the passed value when there is one, the default otherwise |
| FactorAnalysisModel.Truthy | fa_kit/factor_analysis.py:141 | Python truthiness of a `preproc_demean` value: only `True` passes an `if`, `None` and `False` do not |
| Matrices.Broadcasts | fa_kit/factor_analysis.py:373 | numpy's rule for an in-place operation with a `1 x k` operand on data with `p` columns: `k == p` or `k == 1`; otherwise `ShapeMismatch` is raised |
| Matrices.Pick | fa_kit/factor_analysis.py:376 | the operand element that meets column j is always an element of the operand: its only element when it has one, else element j |
| Matrices.IsRootMeanSquare | fa_kit/factor_analysis.py:144-145 | the scale stands for `np.sqrt(np.mean(data ** 2, axis=0))`: one non-negative root of each column's mean square |
| Matrices.IsRootOfDiagonal | fa_kit/factor_analysis.py:127-129 | the scale stands for `np.sqrt(np.diag(data))`: one non-negative root of each diagonal entry |
| Matrices.NonNegativeRootUnique | fa_kit/factor_analysis.py:127-129 | a real has at most one non-negative square root, the one `np.sqrt` returns |
| Matrices.RootOfDiagonalIsUnique | fa_kit/factor_analysis.py:127-129 | the covariance-path scale parameter is determined by the matrix, so it is exactly `np.sqrt(np.diag(data))` |
| Matrices.RootMeanSquareIsUnique | fa_kit/factor_analysis.py:144-145 | the sample-path scale parameter is determined by the working data, so it is exactly `np.sqrt(np.mean(data ** 2, axis=0))` |
| Matrices.ColumnMeans | fa_kit/factor_analysis.py:139 | one entry per column, the mean of that column |
| Matrices.SumOffset | fa_kit/factor_analysis.py:142 | subtracting c from every element lowers the sum by n·c |
| Matrices.MeanOfCentred | fa_kit/factor_analysis.py:139-142 | a column minus its own mean has mean zero |
| Matrices.SubtractRowVector | fa_kit/factor_analysis.py:142 | numpy `m - v` for a broadcast row vector, entry by entry |
| Matrices.CentredColumn | fa_kit/factor_analysis.py:139-142 | column j of the centred data is column j offset by its mean |
| Matrices.DemeanedColumnsHaveZeroMean | fa_kit/factor_analysis.py:139-142 | after subtracting the column means every column of the working data has mean zero |
| Matrices.SumScaled | fa_kit/factor_analysis.py:148 | dividing every element by c divides the sum by c |
| Matrices.ScaledMeanZero | fa_kit/factor_analysis.py:148 | a zero-mean column keeps mean zero after division by a non-zero scale |
| Matrices.ScalingKeepsZeroMeans | fa_kit/factor_analysis.py:141-148 | centred data divided by the scale still has zero column means |
| Matrices.DivideByRowVector | fa_kit/factor_analysis.py:148 | numpy `m / v` for a broadcast row vector: column j divided by the element meeting it |
| Matrices.DivideByColumnVector | fa_kit/factor_analysis.py:133 | numpy `m / v.T`: row i divided by `v[i]` |
| Matrices.Transpose | fa_kit/factor_analysis.py:150 | `m.T`: shape swapped, entry (i, j) is entry (j, i) |
| Matrices.DotCommutes | fa_kit/factor_analysis.py:150 | the dot product of two columns does not depend on their order |
| Matrices.MatMul | fa_kit/factor_analysis.py:380 | `a.dot(b)`: shape `rows(a) x cols(b)`, entry (i, j) is row i of a dotted with column j of b |
| Matrices.DivideBy | fa_kit/factor_analysis.py:150 | division of every entry by the non-zero `n - 1` |
| Matrices.Covariance | fa_kit/factor_analysis.py:150 | `X.T.dot(X) / (n-1)` is p×p and symmetric, and entry (i, j) is column i dotted with column j over n-1 |
| Matrices.OuterNormalize | fa_kit/factor_analysis.py:131-133 | `data /= s; data /= s.T` divides entry (i, j) by `s[j]` and then by `s[i]` |
| Matrices.DivisionsCommute | fa_kit/factor_analysis.py:132-133 | dividing by the two scale entries in either order gives the same value |
| Matrices.DivideByRootTwice | fa_kit/factor_analysis.py:127-133 | a diagonal entry divided twice by its own root is 1 |
| Matrices.OuterNormalizeUnitDiagonal | fa_kit/factor_analysis.py:127-133 | when s is the positive root of the diagonal the normalised matrix has a unit diagonal |
| Matrices.OuterNormalizeKeepsSymmetry | fa_kit/factor_analysis.py:131-133 | the normalisation of a square matrix keeps a symmetric matrix symmetric |
| Matrices.OuterNormalizeDiagonalIsIdentity | fa_kit/factor_analysis.py:127-133 | a diagonal covariance with positive variances normalises to the identity |
| Matrices.DotSelfIsSumOfSquares | fa_kit/factor_analysis.py:150 | the diagonal of `X.T.dot(X)` is each column's sum of squares |
| Matrices.SquaresOfScaled | fa_kit/factor_analysis.py:145-148 | squaring a column divided by its scale divides every square by the scale twice |
| Matrices.NormalisedColumnSumOfSquares | fa_kit/factor_analysis.py:144-150 | a column of n entries divided by its root mean square has sum of squares exactly n |
| Matrices.ColumnOfDivided | fa_kit/factor_analysis.py:148 | column j of `data / scale` is column j of the data divided by `scale[j]` |
| Matrices.RootMeanSquareScaledCovarianceDiagonal | fa_kit/factor_analysis.py:144-150 | data divided by its positive root mean square has the sample-covariance diagonal `n / (n - 1)`, never 1 |
| Matrices.GramOverRows | fa_kit/factor_analysis.py:150 | `X.T.dot(X) / n`: a p×p matrix whose entry (i, j) is the dot product of columns i and j over n |
| Matrices.RootMeanSquareScaledGramIsUnitDiagonal | fa_kit/factor_analysis.py:144-150 | the same scaled data over n has a unit diagonal |
| InPlace.Grid | fa_kit/factor_analysis.py:135 | the array's shape and entries as a matrix value |
| InPlace.Subtract | fa_kit/factor_analysis.py:142 | the in-place `a -= v` leaves `a` equal to `SubtractRowVector` of its old contents |
| InPlace.DivideColumns | fa_kit/factor_analysis.py:148 | the in-place `a /= v` leaves `a` equal to `DivideByRowVector` of its old contents |
| InPlace.DivideRows | fa_kit/factor_analysis.py:133 | the in-place `a /= v.T` leaves `a` equal to `DivideByColumnVector` of its old contents |
| InPlace.Copy | fa_kit/factor_analysis.py:170 | `copy()` returns a new array with the same shape and contents |
| FactorAnalysisModel.InitialStateIsConsistent | fa_kit/factor_analysis.py:95-109 | the state `__init__` builds satisfies the invariant |
| FactorAnalysisModel.LoadCovStep | fa_kit/factor_analysis.py:122-135 | a non-square matrix raises `NonSquareMatrix` with nothing changed. Otherwise `input_mean` is `None` and `input_scale` is the scale. The stored covariance is the matrix itself without `preproc_scale`; with it, entry (i, j) becomes `x[i][j]/s[j]/s[i]`, the diagonal is all ones and symmetry is kept. Only `data_opts` and `data_covar` change, and the invariant is kept |
| FactorAnalysisModel.Centred | fa_kit/factor_analysis.py:141-142 | with demeaning, each entry loses its column mean and every column has mean zero; without it the data is unchanged |
| FactorAnalysisModel.LoadSampleStep | fa_kit/factor_analysis.py:137-150 | `input_mean` is the column means of the data before it changes. A missing `preproc_demean` or `preproc_scale` raises `KeyError` at its point. The working data is the centred data, divided by the scale when scaling is on, and has zero column means when demeaned. The stored covariance is the symmetric p×p `Covariance` of the working data. Only `data_opts` and `data_covar` change, and the invariant is kept |
| FactorAnalysisModel.ScaledSampleCovarianceDiagonal | fa_kit/factor_analysis.py:144-150 | with both flags on the sample path succeeds, and every diagonal entry of the stored matrix is `n / (n - 1)`, not the 1 of the correlation the docstring at lines 159-162 promises |
| FactorAnalysisModel.ScaledSampleGramOverRowsIsUnitDiagonal | fa_kit/factor_analysis.py:144-150 | dividing that working data's `X.T.dot(X)` by n rather than n - 1 would give the unit diagonal of a correlation matrix |
| FactorAnalysisModel.LoadSampleDone | fa_kit/factor_analysis.py:150 | a successful sample load stores the covariance of the working data and changes nothing else |
| FactorAnalysisModel.LoadDataStep | fa_kit/factor_analysis.py:112-150 | `load_data` follows the covariance path when `is_cov` is set and the sample path otherwise, keeping the invariant |
| FactorAnalysisModel.SampleOpts | fa_kit/factor_analysis.py:176-181 | `load_data_samples` installs the two flags, the labels and their dictionary, and no mean or scale |
| FactorAnalysisModel.CovOpts | fa_kit/factor_analysis.py:205-210 | `load_data_cov` installs `preproc_demean = None`, the scale flag, the labels and their dictionary |
| FactorAnalysisModel.ExtractStep | fa_kit/factor_analysis.py:253-256 | success replaces `comps_raw` and `props_raw` with the collaborator's result and changes nothing else, so `comps_paf`, `comps_rot` and `retain_idx` are kept; a failure changes nothing |
| FactorAnalysisModel.SetUpRetention | fa_kit/factor_analysis.py:282-296 | `method` is recorded on every path. The call succeeds exactly for the four known names, minus kaiser without proportions and a failed stick fit. Defaults are 5, 0.90 and `len(props_raw)`. Each method writes only its own key, and every failure records only `method` |
| FactorAnalysisModel.RetentionCallUsesRecordedParameter | fa_kit/factor_analysis.py:282-319 | the rule is called with `props_raw` and with exactly the parameter recorded in `retention_opts` |
| FactorAnalysisModel.RetainStep | fa_kit/factor_analysis.py:280-321 | `method` is always recorded. On success the returned indices are stored in `retain_idx`; on any failure, including an unknown name, `retain_idx` keeps its old value. Nothing but `retention_opts` and `retain_idx` changes, so `comps_paf` and `comps_rot` are never cleared |
| FactorAnalysisModel.PafStep | fa_kit/factor_analysis.py:332-337 | `comps_raw` of `None` raises `TypeError` with nothing changed; otherwise only `comps_paf` changes, to the collaborator's result, and only on success |
| FactorAnalysisModel.RotatorName | fa_kit/factor_analysis.py:347-354 | every rotator's name is one of the four accepted names |
| FactorAnalysisModel.RotatorFor | fa_kit/factor_analysis.py:347-358 | a rotator exists exactly for `varimax`, `varimax_tf`, `quartimax` and `quartimax_tf`, and it is the one with that name |
| FactorAnalysisModel.RotatorForName | fa_kit/factor_analysis.py:347-354 | each rotator is found again from its name |
| FactorAnalysisModel.RotationTarget | fa_kit/factor_analysis.py:360-363 | the rotator gets `comps_paf` when present and otherwise the whole `comps_raw` |
| FactorAnalysisModel.RotateStep | fa_kit/factor_analysis.py:345-363 | `rotation_opts['method']` is recorded on every path. An unknown name raises with `comps_rot` unchanged. Success stores the rotation of `RotationTarget`, and only `rotation_opts` and `comps_rot` can change |
| FactorAnalysisModel.DemeanStep | fa_kit/factor_analysis.py:372-373 | subtracts `input_mean` only when `preproc_demean` is truthy, so a `None` or `False` flag leaves the data alone. A missing key, a `None` mean and a non-broadcasting mean each raise |
| FactorAnalysisModel.ScaleStep | fa_kit/factor_analysis.py:375-376 | divides by `input_scale` only when `preproc_scale` is true; a missing key or a non-broadcasting scale raises |
| FactorAnalysisModel.ScoringBasis | fa_kit/factor_analysis.py:379-386 | preference `comps_rot`, then `comps_paf`, then `comps_raw`; none exists only when all three are `None` |
| FactorAnalysisModel.Project | fa_kit/factor_analysis.py:379-388 | no components raise the "no components" exception, non-chaining shapes raise, and otherwise the result is the `n x k` product |
| FactorAnalysisModel.ScoreStep | fa_kit/factor_analysis.py:365-388 | centres, then scales, then projects onto `ScoringBasis`. An error stops the pipeline with the array as far as it got. A result exists only when some component matrix exists |
| FactorAnalysisModel.ScoringRepeatsSamplePreprocessing | fa_kit/factor_analysis.py:372-376 | scoring the data a sample load was made from leaves the array equal to that load's working data |
| FactorAnalysisModel.CovarianceModelNeverDemeans | fa_kit/factor_analysis.py:206 | after a covariance load, scoring never subtracts a mean |
| FactorAnalysisModel.FactorAnalysis.constructor | fa_kit/factor_analysis.py:95-109 | every field `None`, every dictionary empty, invariant established |
| FactorAnalysisModel.FactorAnalysis.LoadData | fa_kit/factor_analysis.py:112-150 | non-array input raises `TypeError` with nothing changed. Otherwise outcome, new fields and the caller's array end as `LoadDataStep` says, and the invariant is kept |
| FactorAnalysisModel.FactorAnalysis.LoadDataSamples | fa_kit/factor_analysis.py:153-185 | the caller's array is untouched. A wrong label count raises and returns no object. Otherwise a fresh valid object is in the state `LoadSampleStep` gives from the installed options |
| FactorAnalysisModel.FactorAnalysis.LoadDataCov | fa_kit/factor_analysis.py:187-214 | the caller's array is untouched. A wrong label count or a non-square matrix raises, in that order. Otherwise a fresh valid object is in the state `LoadCovStep` gives |
| FactorAnalysisModel.FactorAnalysis.AddNoiseCov | fa_kit/factor_analysis.py:229-245 | checks type, then loaded data, then squareness, then size against `data_covar`; succeeds exactly when all four pass; changes no field, since it has no `modifies` clause |
| FactorAnalysisModel.FactorAnalysis.ExtractComponents | fa_kit/factor_analysis.py:253-256 | follows `ExtractStep` and keeps the invariant |
| FactorAnalysisModel.FactorAnalysis.FindCompsToRetain | fa_kit/factor_analysis.py:280-321 | returns and stores as `RetainStep` says and keeps the invariant |
| FactorAnalysisModel.FactorAnalysis.ReextractUsingPaf | fa_kit/factor_analysis.py:332-337 | follows `PafStep` and keeps the invariant |
| FactorAnalysisModel.FactorAnalysis.RotateComponents | fa_kit/factor_analysis.py:345-363 | follows `RotateStep` and keeps the invariant |
| FactorAnalysisModel.FactorAnalysis.GetComponentScores | fa_kit/factor_analysis.py:365-388 | result and final contents of the caller's array are as `ScoreStep` says; the object does not change |

## Left out

- The numerical collaborators are opaque function parameters: eigen-extraction, the four retention rules, `BrokenStick`, principal axis factoring and the rotators, TensorFlow variants included. Their code is not part of this model and is floating-point linear algebra. The model fixes only what they are given and where their results are stored.
- FactorAnalysisModel.PafStep: the column selection `comps_raw[:, retain_idx]` is passed to the opaque collaborator, as `comps_raw` and `retain_idx`, rather than modelled. numpy's treatment of a `None` or out-of-range index is part of that collaborator.
- `np.sqrt` is not computed. The scale vector is a parameter whose preconditions require it to be the non-negative root that the source computes.
- FactorAnalysisModel.LoadSampleStep: data with fewer than two rows is excluded (an empty mean or a division by `n - 1 = 0` gives NaN or infinity in numpy). So is a scale with a zero when scaling is on, i.e. a constant-zero column or a zero variance. Floating-point NaN and infinity are not modelled.
- FactorAnalysisModel.LoadCovStep: a negative diagonal entry is excluded, because `np.sqrt` gives NaN there. With `preproc_scale` on, a zero diagonal entry is excluded too, because the division gives infinity.
- When `load_data(data, is_cov=True)` is called directly, `data_covar` is the caller's array itself in the source. The model stores its contents as a value, so later writes through that alias are not modelled. The two class-method loaders copy first, so this does not arise there.
- Arithmetic is exact real arithmetic, not IEEE floating point.
- Only two-dimensional real arrays are modelled. Not modelled are one-dimensional arrays, pandas DataFrame input with `_panda_to_numpy`, and integer dtypes. With an integer array, numpy raises on the in-place `-=` and `/=` with float operands. Under Python 2, an integer array that is neither demeaned nor scaled reaches `/ (n - 1)` on line 150 as floor division.
- `load_data_samples` and `load_data_cov` take only a two-dimensional array. In the source a non-array input fails in one of three places: with `AttributeError` in `copy()`, with `AttributeError` at `np_data.shape` in `_cleanup_labels`, or with `TypeError` in `load_data`. The model covers none of these.
- The keyword arguments `preproc_demean` and `preproc_scale` are modelled as booleans. Other truthy Python values are not modelled.
- Dafny methods have no default arguments, so the caller always passes every argument. This covers the default method names `broken_stick` and `varimax` (lines 259 and 340) and the `False` defaults of `is_cov`, `preproc_demean` and `preproc_scale` (lines 112, 177-178 and 188).
- Exception messages are not modelled, only which exception is raised. The model follows Python 2 semantics here. Under Python 3, building the `NonSquareMatrix` message (`kwargs.keys()[0]`) itself raises `TypeError`.
- fa_kit/plotting.py (figures and text reports) is not part of this model.
