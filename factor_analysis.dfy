/**
 * The FactorAnalysis pipeline object: loading data (per-sample or as a
 * covariance matrix), validating a noise covariance, extracting, retaining,
 * re-extracting and rotating components, and scoring new data.
 *
 * Every step is described twice: by a pure transition function on a
 * `ModelState` snapshot, whose contract states what the step promises, and by
 * a method of the class `FactorAnalysis` that changes the object's fields and
 * the caller's array in place and is proved to follow that function.
 *
 * The numerical collaborators (eigen-extraction, the retention rules, the
 * broken-stick fit, principal axis factoring and the rotators) are opaque:
 * each is a function parameter that returns `None` when the collaborator
 * raises and `Some(result)` otherwise.
 */
module FactorAnalysisModel {
  import opened Wrappers
  import opened Exceptions
  import opened Matrices
  import opened Labels
  import InPlace

  // ---------------------------------------------------------------------------
  // Option dictionaries

  /** A Python value used as a flag: `None`, `True` or `False`. */
  datatype Flag = NoneFlag | BoolFlag(b: bool)

  /** Python truthiness of a flag: only `True` is truthy. */
  predicate Truthy(f: Flag) {
    f == BoolFlag(true)
  }

  /**
   * The `data_opts` dictionary, one field per key; a field is `None` while its
   * key is absent. `inputMean` holds `Some(None)` once the key is set to Python `None`.
   */
  datatype DataOpts = DataOpts(
    preprocDemean: Option<Flag>,
    preprocScale: Option<bool>,
    labels: Option<seq<Label>>,
    labelsDict: Option<map<int, Label>>,
    inputMean: Option<Option<seq<real>>>,
    inputScale: Option<seq<real>>)

  /** A fitted broken-stick distribution, produced by the opaque `BrokenStick(props)`. */
  datatype Stick = Stick(expected: seq<real>)

  /** The `retention_opts` dictionary. */
  datatype RetentionOpts = RetentionOpts(
    methodName: Option<string>,
    numKeep: Option<int>,
    pctKeep: Option<real>,
    dataDim: Option<int>,
    fitStick: Option<Stick>)

  /** The keyword arguments `num_keep`, `pct_keep` and `data_dim` of `find_comps_to_retain`, `None` when not passed. */
  datatype RetentionArgs = RetentionArgs(numKeep: Option<int>, pctKeep: Option<real>, dataDim: Option<int>)

  /** The call into the retention rules that `find_comps_to_retain` makes, with its arguments. */
  datatype RetentionCall =
    | TopNRule(props: Option<seq<real>>, numKeep: int)
    | TopPctRule(props: Option<seq<real>>, pctKeep: real)
    | KaiserRule(proportions: seq<real>, dataDim: int)
    | BrokenStickRule(props: Option<seq<real>>, stick: Stick)

  /** The `rotation_opts` dictionary. */
  datatype RotationOpts = RotationOpts(methodName: Option<string>)

  /** The four rotator classes `rotate_components` can instantiate. */
  datatype Rotator = VarimaxPython | VarimaxTf | QuartimaxPython | QuartimaxTf

  const RetentionMethods: set<string> := {"top_n", "top_pct", "kaiser", "broken_stick"}
  const RotationMethods: set<string> := {"varimax", "varimax_tf", "quartimax", "quartimax_tf"}
  const DefaultNumKeep: int := 5
  const DefaultPctKeep: real := 0.90

  const NoDataOpts := DataOpts(None, None, None, None, None, None)
  const NoRetentionOpts := RetentionOpts(None, None, None, None, None)

  /** An argument that is either a two-dimensional numpy array or some other Python value. */
  datatype PyInput = NumpyArray(arr: array2<real>) | NotNumpy

  // ---------------------------------------------------------------------------
  // The object's state

  /** A snapshot of the ten fields of a FactorAnalysis object. */
  datatype ModelState = ModelState(
    dataCovar: Option<Mat>,
    noiseCovar: Option<Mat>,
    dataOpts: DataOpts,
    retentionOpts: RetentionOpts,
    rotationOpts: RotationOpts,
    compsRaw: Option<Mat>,
    compsPaf: Option<Mat>,
    compsRot: Option<Mat>,
    propsRaw: Option<seq<real>>,
    retainIdx: Option<seq<int>>)

  /** The state `__init__` sets up: every field `None` and every dictionary empty. */
  const InitialState := ModelState(None, None, NoDataOpts, NoRetentionOpts, RotationOpts(None), None, None, None, None, None)

  /** Dividing by the stored scale is defined whenever scaling is switched on. */
  predicate ScaleUsable(opts: DataOpts) {
    opts.preprocScale == Some(true) && opts.inputScale.Some? ==> NonZero(opts.inputScale.value)
  }

  /**
   * What every reachable state satisfies: no method stores a noise covariance,
   * a stored covariance is square, `labels_dict` is built from `labels`, and a
   * scale that is used for division has no zero.
   */
  predicate Consistent(s: ModelState) {
    && s.noiseCovar.None?
    && (s.dataCovar.Some? ==> IsSquare(s.dataCovar.value))
    && (s.dataOpts.labels.Some? <==> s.dataOpts.labelsDict.Some?)
    && (s.dataOpts.labels.Some? ==> s.dataOpts.labelsDict.value == LabelsDict(s.dataOpts.labels.value))
    && ScaleUsable(s.dataOpts)
  }

  lemma InitialStateIsConsistent()
    ensures Consistent(InitialState)
  {
  }

  // ---------------------------------------------------------------------------
  // load_data

  /** The new state of a step, the outcome it reports and the final contents of the array it worked on. */
  datatype LoadStep = LoadStep(out: Outcome, state: ModelState, work: Mat)

  /**
   * What the covariance path needs of the scale argument, which stands for
   * `np.sqrt(np.diag(data))`: on a square matrix it is the root of the
   * diagonal, and it has no zero when it is divided by.
   */
  ghost predicate CovScaleFits(opts: DataOpts, x: Mat, scale: seq<real>) {
    IsSquare(x) ==> IsRootOfDiagonal(scale, x) && (opts.preprocScale == Some(true) ==> Positive(scale))
  }

  /**
   * The covariance path of `load_data` on the matrix `x`: a non-square matrix
   * is refused and nothing changes; otherwise `input_mean` becomes `None`,
   * `input_scale` the root of the diagonal, and the stored covariance is `x`
   * itself, or `x` normalised on both sides to a unit diagonal when
   * `preproc_scale` is on.
   */
  function LoadCovStep(s: ModelState, x: Mat, scale: seq<real>): (r: LoadStep)
    requires CovScaleFits(s.dataOpts, x, scale)
    ensures !IsSquare(x) ==> r == LoadStep(Raised(NonSquareMatrix), s, x)
    ensures r.out.Done? <==> IsSquare(x) && s.dataOpts.preprocScale.Some?
    ensures r.out.Raised? ==> r.state.dataCovar == s.dataCovar && r.work == x
    ensures IsSquare(x) ==> r.state.dataOpts == s.dataOpts.(inputMean := Some(None), inputScale := Some(scale))
    ensures r.state == s.(dataOpts := r.state.dataOpts, dataCovar := r.state.dataCovar)
    ensures r.out.Done? ==> r.state.dataCovar == Some(r.work) && r.work.rows == x.rows && r.work.cols == x.cols
    ensures r.out.Done? && s.dataOpts.preprocScale == Some(false) ==> r.work == x
    ensures r.out.Done? && s.dataOpts.preprocScale == Some(true) ==>
      && (forall i, j :: 0 <= i < x.rows && 0 <= j < x.rows ==> r.work.at[i][j] == (x.at[i][j] / scale[j]) / scale[i])
      && (forall i :: 0 <= i < x.rows ==> r.work.at[i][i] == 1.0)
    ensures r.out.Done? && IsSymmetric(x) ==> IsSymmetric(r.work)
    ensures Consistent(s) ==> Consistent(r.state)
  {
    if !IsSquare(x) then LoadStep(Raised(NonSquareMatrix), s, x)
    else
      var opts := s.dataOpts.(inputMean := Some(None), inputScale := Some(scale));
      var s1 := s.(dataOpts := opts);
      match opts.preprocScale
      case None => LoadStep(Raised(KeyError("preproc_scale")), s1, x)
      case Some(scaling) =>
        if scaling then
          OuterNormalizeUnitDiagonal(x, scale);
          OuterNormalizeKeepsSymmetry(x, scale);
          var w := OuterNormalize(x, scale);
          LoadStep(Done, s1.(dataCovar := Some(w)), w)
        else LoadStep(Done, s1.(dataCovar := Some(x)), x)
  }

  /**
   * The sample path's `data -= input_mean` when `demean` is on: every column of
   * the result has mean zero.
   */
  function Centred(x: Mat, demean: bool): (w: Mat)
    requires x.rows > 0
    ensures w.rows == x.rows && w.cols == x.cols
    ensures !demean ==> w == x
    ensures demean ==> forall j :: 0 <= j < x.cols ==> ColumnMeans(w)[j] == 0.0
    ensures demean ==> forall i, j :: 0 <= i < x.rows && 0 <= j < x.cols ==> w.at[i][j] == x.at[i][j] - Mean(Column(x, j))
  {
    if demean then
      DemeanedColumnsHaveZeroMean(x);
      SubtractRowVector(x, ColumnMeans(x))
    else x
  }

  /**
   * What the sample path needs: rows to take the means of, two rows or more to
   * divide by `n - 1`, and a scale argument that stands for
   * `np.sqrt(np.mean(data ** 2, axis=0))` of the possibly centred data and has
   * no zero when it is divided by.
   */
  ghost predicate SampleScaleFits(opts: DataOpts, x: Mat, scale: seq<real>) {
    && x.rows > 0
    && (opts.preprocDemean.Some? ==>
          && IsRootMeanSquare(scale, Centred(x, Truthy(opts.preprocDemean.value)))
          && (opts.preprocScale == Some(true) ==> Positive(scale)))
    && (opts.preprocDemean.Some? && opts.preprocScale.Some? ==> x.rows >= 2)
  }

  /**
   * The sample path of `load_data` on the `n x p` data `x`: `input_mean` is
   * taken from `x` before anything changes it, the data is centred when
   * `preproc_demean` is truthy and divided by the scale when `preproc_scale`
   * is, and the stored covariance is the symmetric `p x p` product
   * `XᵀX / (n - 1)` of that working data.
   */
  function LoadSampleStep(s: ModelState, x: Mat, scale: seq<real>): (r: LoadStep)
    requires SampleScaleFits(s.dataOpts, x, scale)
    ensures r.state.dataOpts.inputMean == Some(Some(ColumnMeans(x)))
    ensures r.state == s.(dataOpts := r.state.dataOpts, dataCovar := r.state.dataCovar)
    ensures r.out.Done? <==> s.dataOpts.preprocDemean.Some? && s.dataOpts.preprocScale.Some?
    ensures s.dataOpts.preprocDemean.None? ==>
      r == LoadStep(Raised(KeyError("preproc_demean")), s.(dataOpts := s.dataOpts.(inputMean := Some(Some(ColumnMeans(x))))), x)
    ensures s.dataOpts.preprocDemean.Some? ==>
      && r.state.dataOpts == s.dataOpts.(inputMean := Some(Some(ColumnMeans(x))), inputScale := Some(scale))
      && (s.dataOpts.preprocScale.None? ==> r.out == Raised(KeyError("preproc_scale")))
    ensures r.out.Raised? ==> r.state.dataCovar == s.dataCovar
    ensures r.work.rows == x.rows && r.work.cols == x.cols
    ensures s.dataOpts.preprocDemean.Some? && s.dataOpts.preprocScale != Some(true) ==>
      r.work == Centred(x, Truthy(s.dataOpts.preprocDemean.value))
    ensures s.dataOpts.preprocDemean.Some? && s.dataOpts.preprocScale == Some(true) ==>
      r.work == DivideByRowVector(Centred(x, Truthy(s.dataOpts.preprocDemean.value)), scale)
    ensures s.dataOpts.preprocDemean.Some? && Truthy(s.dataOpts.preprocDemean.value) ==>
      forall j :: 0 <= j < x.cols ==> ColumnMeans(r.work)[j] == 0.0
    ensures r.out.Done? ==>
      && r.state.dataCovar == Some(Covariance(r.work))
      && r.state.dataCovar.value.rows == x.cols
      && IsSymmetric(r.state.dataCovar.value)
    ensures Consistent(s) ==> Consistent(r.state)
  {
    var opts := s.dataOpts.(inputMean := Some(Some(ColumnMeans(x))));
    var s1 := s.(dataOpts := opts);
    match opts.preprocDemean
    case None => LoadStep(Raised(KeyError("preproc_demean")), s1, x)
    case Some(flag) =>
      var centred := Centred(x, Truthy(flag));
      var s2 := s1.(dataOpts := opts.(inputScale := Some(scale)));
      match opts.preprocScale
      case None => LoadStep(Raised(KeyError("preproc_scale")), s2, centred)
      case Some(scaling) =>
        if scaling then
          if Truthy(flag) then ScalingKeepsZeroMeans(centred, scale); LoadSampleDone(s2, DivideByRowVector(centred, scale))
          else LoadSampleDone(s2, DivideByRowVector(centred, scale))
        else LoadSampleDone(s2, centred)
  }

  /** The end of a successful sample path: store the covariance of the working data. */
  function LoadSampleDone(s: ModelState, w: Mat): (r: LoadStep)
    requires w.rows >= 2
    ensures r.out == Done && r.work == w && r.state == s.(dataCovar := Some(Covariance(w)))
  {
    LoadStep(Done, s.(dataCovar := Some(Covariance(w))), w)
  }

  /**
   * With `preproc_scale` on, the stored matrix is not quite the correlation
   * matrix the docstring of `load_data` promises: every diagonal entry is
   * `n / (n - 1)`, because the scale averages the squares over the `n` rows
   * while the covariance divides their sum by `n - 1`.
   */
  lemma ScaledSampleCovarianceDiagonal(s: ModelState, x: Mat, scale: seq<real>)
    requires SampleScaleFits(s.dataOpts, x, scale)
    requires s.dataOpts.preprocDemean.Some? && s.dataOpts.preprocScale == Some(true)
    ensures LoadSampleStep(s, x, scale).out == Done
    ensures forall j :: 0 <= j < x.cols ==>
      LoadSampleStep(s, x, scale).state.dataCovar.value.at[j][j] == (x.rows as real) / ((x.rows - 1) as real)
    ensures forall j :: 0 <= j < x.cols ==> LoadSampleStep(s, x, scale).state.dataCovar.value.at[j][j] != 1.0
  {
    RootMeanSquareScaledCovarianceDiagonal(Centred(x, Truthy(s.dataOpts.preprocDemean.value)), scale);
  }

  /**
   * The same scaled working data over the divisor `n` that the scale uses,
   * `X.T.dot(X) / n`, has the unit diagonal of a correlation matrix.
   */
  lemma ScaledSampleGramOverRowsIsUnitDiagonal(s: ModelState, x: Mat, scale: seq<real>)
    requires SampleScaleFits(s.dataOpts, x, scale)
    requires s.dataOpts.preprocDemean.Some? && s.dataOpts.preprocScale == Some(true)
    ensures forall j :: 0 <= j < x.cols ==> GramOverRows(LoadSampleStep(s, x, scale).work).at[j][j] == 1.0
  {
    RootMeanSquareScaledGramIsUnitDiagonal(Centred(x, Truthy(s.dataOpts.preprocDemean.value)), scale);
  }

  /** What `load_data(data, is_cov)` needs of the scale argument. */
  ghost predicate LoadArgumentsFit(opts: DataOpts, x: Mat, isCov: bool, scale: seq<real>) {
    if isCov then CovScaleFits(opts, x, scale) else SampleScaleFits(opts, x, scale)
  }

  /** `load_data` on a numpy array, by path. */
  function LoadDataStep(s: ModelState, x: Mat, isCov: bool, scale: seq<real>): (r: LoadStep)
    requires LoadArgumentsFit(s.dataOpts, x, isCov, scale)
    ensures isCov ==> r == LoadCovStep(s, x, scale)
    ensures !isCov ==> r == LoadSampleStep(s, x, scale)
    ensures Consistent(s) ==> Consistent(r.state)
  {
    if isCov then LoadCovStep(s, x, scale) else LoadSampleStep(s, x, scale)
  }

  /** The `data_opts` that `load_data_samples` installs before loading. */
  function SampleOpts(demean: bool, scaling: bool, labels: seq<Label>): (o: DataOpts)
    ensures o.labels == Some(labels) && o.labelsDict == Some(LabelsDict(labels))
    ensures o.preprocDemean == Some(BoolFlag(demean)) && o.preprocScale == Some(scaling)
    ensures o.inputMean.None? && o.inputScale.None?
  {
    DataOpts(Some(BoolFlag(demean)), Some(scaling), Some(labels), Some(LabelsDict(labels)), None, None)
  }

  /** The `data_opts` that `load_data_cov` installs before loading: `preproc_demean` is `None`. */
  function CovOpts(scaling: bool, labels: seq<Label>): (o: DataOpts)
    ensures o.labels == Some(labels) && o.labelsDict == Some(LabelsDict(labels))
    ensures o.preprocDemean == Some(NoneFlag) && o.preprocScale == Some(scaling)
    ensures o.inputMean.None? && o.inputScale.None?
  {
    DataOpts(Some(NoneFlag), Some(scaling), Some(labels), Some(LabelsDict(labels)), None, None)
  }

  // ---------------------------------------------------------------------------
  // extract_components, find_comps_to_retain, reextract_using_paf, rotate_components

  /** The outcome of a step together with the new state. */
  datatype Step<T> = Step(out: T, state: ModelState)

  /**
   * `extract_components`: the opaque extraction sees `data_covar` and
   * `noise_covar`; on success `comps_raw` and `props_raw` are replaced and
   * nothing else changes (`comps_paf`, `comps_rot` and `retain_idx` are kept
   * as they were), and a failure changes nothing.
   */
  function ExtractStep(s: ModelState, extract: (Option<Mat>, Option<Mat>) -> Option<(Mat, seq<real>)>): (r: Step<Outcome>)
    ensures r.out.Done? <==> extract(s.dataCovar, s.noiseCovar).Some?
    ensures r.out.Raised? ==> r.out == Raised(CollaboratorFailed) && r.state == s
    ensures r.out.Done? ==>
      r.state == s.(compsRaw := Some(extract(s.dataCovar, s.noiseCovar).value.0),
                    propsRaw := Some(extract(s.dataCovar, s.noiseCovar).value.1))
    ensures Consistent(s) ==> Consistent(r.state)
  {
    match extract(s.dataCovar, s.noiseCovar)
    case None => Step(Raised(CollaboratorFailed), s)
    case Some(result) => Step(Done, s.(compsRaw := Some(result.0), propsRaw := Some(result.1)))
  }

  /** The retention options after the "set up parameters" block, and the rule call it prepares. */
  datatype RetentionSetup = RetentionSetup(opts: RetentionOpts, call: Result<RetentionCall, Error>)

  /**
   * The "set up parameters" block of `find_comps_to_retain`: `method` is
   * recorded first, whatever happens next; each known method records its own
   * parameter with its default (`num_keep = 5`, `pct_keep = 0.90`,
   * `data_dim = len(props_raw)`, a broken stick fitted to `props_raw`); an
   * unknown method, a `kaiser` request without proportions (`len(None)` is
   * evaluated even when `data_dim` is passed) and a failed fit raise with
   * only `method` recorded.
   */
  function SetUpRetention(opts: RetentionOpts, methodName: string, args: RetentionArgs, props: Option<seq<real>>,
                          fitStick: Option<seq<real>> -> Option<Stick>): (r: RetentionSetup)
    ensures r.opts.methodName == Some(methodName)
    ensures r.call.Ok? <==>
      && methodName in RetentionMethods
      && (methodName == "kaiser" ==> props.Some?)
      && (methodName == "broken_stick" ==> fitStick(props).Some?)
    ensures r.call.Err? ==> r.opts == opts.(methodName := Some(methodName))
    ensures methodName !in RetentionMethods ==> r.call == Err(UnknownRetentionMethod(methodName))
    ensures methodName == "kaiser" && props.None? ==> r.call == Err(TypeError)
    ensures methodName == "broken_stick" && fitStick(props).None? ==> r.call == Err(CollaboratorFailed)
    ensures methodName == "top_n" ==>
      && r.opts == opts.(methodName := Some(methodName), numKeep := Some(args.numKeep.GetOr(DefaultNumKeep)))
      && r.call == Ok(TopNRule(props, args.numKeep.GetOr(DefaultNumKeep)))
    ensures methodName == "top_pct" ==>
      && r.opts == opts.(methodName := Some(methodName), pctKeep := Some(args.pctKeep.GetOr(DefaultPctKeep)))
      && r.call == Ok(TopPctRule(props, args.pctKeep.GetOr(DefaultPctKeep)))
    ensures methodName == "kaiser" && props.Some? ==>
      && r.opts == opts.(methodName := Some(methodName), dataDim := Some(args.dataDim.GetOr(|props.value|)))
      && r.call == Ok(KaiserRule(props.value, args.dataDim.GetOr(|props.value|)))
    ensures methodName == "broken_stick" && fitStick(props).Some? ==>
      && r.opts == opts.(methodName := Some(methodName), fitStick := fitStick(props))
      && r.call == Ok(BrokenStickRule(props, fitStick(props).value))
  {
    var recorded := opts.(methodName := Some(methodName));
    if methodName == "top_n" then
      var n := args.numKeep.GetOr(DefaultNumKeep);
      RetentionSetup(recorded.(numKeep := Some(n)), Ok(TopNRule(props, n)))
    else if methodName == "top_pct" then
      var pct := args.pctKeep.GetOr(DefaultPctKeep);
      RetentionSetup(recorded.(pctKeep := Some(pct)), Ok(TopPctRule(props, pct)))
    else if methodName == "kaiser" then
      match props
      case None => RetentionSetup(recorded, Err(TypeError))
      case Some(p) =>
        var dim := args.dataDim.GetOr(|p|);
        RetentionSetup(recorded.(dataDim := Some(dim)), Ok(KaiserRule(p, dim)))
    else if methodName == "broken_stick" then
      match fitStick(props)
      case None => RetentionSetup(recorded, Err(CollaboratorFailed))
      case Some(stick) => RetentionSetup(recorded.(fitStick := Some(stick)), Ok(BrokenStickRule(props, stick)))
    else
      RetentionSetup(recorded, Err(UnknownRetentionMethod(methodName)))
  }

  /** The rule call hands over exactly the parameter that was recorded for it. */
  lemma RetentionCallUsesRecordedParameter(opts: RetentionOpts, methodName: string, args: RetentionArgs,
                                           props: Option<seq<real>>, fitStick: Option<seq<real>> -> Option<Stick>)
    requires SetUpRetention(opts, methodName, args, props, fitStick).call.Ok?
    ensures var r := SetUpRetention(opts, methodName, args, props, fitStick);
      match r.call.value
      case TopNRule(p, n) => p == props && r.opts.numKeep == Some(n)
      case TopPctRule(p, pct) => p == props && r.opts.pctKeep == Some(pct)
      case KaiserRule(p, dim) => Some(p) == props && r.opts.dataDim == Some(dim)
      case BrokenStickRule(p, stick) => p == props && r.opts.fitStick == Some(stick)
  {
  }

  /**
   * `find_comps_to_retain(method, **kwargs)`: the set-up block, then the
   * opaque retention rule. On success `retain_idx` holds the rule's indices
   * and is returned; on any failure `retain_idx` keeps its old value. Only
   * `retention_opts` and `retain_idx` can change: `comps_paf` and
   * `comps_rot` are never cleared.
   */
  function RetainStep(s: ModelState, methodName: string, args: RetentionArgs,
                      fitStick: Option<seq<real>> -> Option<Stick>,
                      retain: RetentionCall -> Option<seq<int>>): (r: Step<Result<seq<int>, Error>>)
    ensures r.state.retentionOpts == SetUpRetention(s.retentionOpts, methodName, args, s.propsRaw, fitStick).opts
    ensures r.state.retentionOpts.methodName == Some(methodName)
    ensures r.state == s.(retentionOpts := r.state.retentionOpts, retainIdx := r.state.retainIdx)
    ensures r.out.Ok? <==>
      && SetUpRetention(s.retentionOpts, methodName, args, s.propsRaw, fitStick).call.Ok?
      && retain(SetUpRetention(s.retentionOpts, methodName, args, s.propsRaw, fitStick).call.value).Some?
    ensures r.out.Ok? ==>
      && r.state.retainIdx == Some(r.out.value)
      && retain(SetUpRetention(s.retentionOpts, methodName, args, s.propsRaw, fitStick).call.value) == Some(r.out.value)
    ensures r.out.Err? ==> r.state.retainIdx == s.retainIdx
    ensures methodName !in RetentionMethods ==>
      r == Step(Err(UnknownRetentionMethod(methodName)), s.(retentionOpts := s.retentionOpts.(methodName := Some(methodName))))
    ensures Consistent(s) ==> Consistent(r.state)
  {
    var setup := SetUpRetention(s.retentionOpts, methodName, args, s.propsRaw, fitStick);
    var s1 := s.(retentionOpts := setup.opts);
    match setup.call
    case Err(e) => Step(Err(e), s1)
    case Ok(call) =>
      match retain(call)
      case None => Step(Err(CollaboratorFailed), s1)
      case Some(idx) => Step(Ok(idx), s1.(retainIdx := Some(idx)))
  }

  /**
   * `reextract_using_paf`: `comps_raw[:, retain_idx]` raises a type error
   * while `comps_raw` is `None`; otherwise the opaque principal axis
   * factoring sees `comps_raw`, `retain_idx`, `data_covar` and `noise_covar`,
   * and only `comps_paf` changes, on success.
   */
  function PafStep(s: ModelState, paf: (Mat, Option<seq<int>>, Option<Mat>, Option<Mat>) -> Option<Mat>): (r: Step<Outcome>)
    ensures s.compsRaw.None? ==> r == Step(Raised(TypeError), s)
    ensures r.out.Done? <==> s.compsRaw.Some? && paf(s.compsRaw.value, s.retainIdx, s.dataCovar, s.noiseCovar).Some?
    ensures r.out.Raised? ==> r.state == s
    ensures r.out.Done? ==> r.state == s.(compsPaf := paf(s.compsRaw.value, s.retainIdx, s.dataCovar, s.noiseCovar))
    ensures Consistent(s) ==> Consistent(r.state)
  {
    match s.compsRaw
    case None => Step(Raised(TypeError), s)
    case Some(raw) =>
      match paf(raw, s.retainIdx, s.dataCovar, s.noiseCovar)
      case None => Step(Raised(CollaboratorFailed), s)
      case Some(m) => Step(Done, s.(compsPaf := Some(m)))
  }

  function RotatorName(rot: Rotator): (name: string)
    ensures name in RotationMethods
  {
    match rot
    case VarimaxPython => "varimax"
    case VarimaxTf => "varimax_tf"
    case QuartimaxPython => "quartimax"
    case QuartimaxTf => "quartimax_tf"
  }

  /** The rotator `rotate_components` instantiates for `method`; exactly the four known names have one. */
  function RotatorFor(methodName: string): (r: Option<Rotator>)
    ensures r.Some? <==> methodName in RotationMethods
    ensures r.Some? ==> RotatorName(r.value) == methodName
  {
    if methodName == "varimax" then Some(VarimaxPython)
    else if methodName == "varimax_tf" then Some(VarimaxTf)
    else if methodName == "quartimax" then Some(QuartimaxPython)
    else if methodName == "quartimax_tf" then Some(QuartimaxTf)
    else None
  }

  /** Every rotator is found again from its name, so no two rotators share one. */
  lemma RotatorForName(rot: Rotator)
    ensures RotatorFor(RotatorName(rot)) == Some(rot)
  {
  }

  /** The components `rotate_components` hands to the rotator: `comps_paf` if present, else the whole of `comps_raw`. */
  function RotationTarget(s: ModelState): (c: Option<Mat>)
    ensures s.compsPaf.Some? ==> c == s.compsPaf
    ensures s.compsPaf.None? ==> c == s.compsRaw
  {
    if s.compsPaf.Some? then s.compsPaf else s.compsRaw
  }

  /**
   * `rotate_components(method)`: `rotation_opts['method']` is recorded first;
   * an unknown name then raises with `comps_rot` unchanged; a known one
   * rotates `comps_paf` when present and the full `comps_raw` otherwise, and
   * only `comps_rot` changes, on success.
   */
  function RotateStep(s: ModelState, methodName: string, rotate: (Rotator, Option<Mat>) -> Option<Mat>): (r: Step<Outcome>)
    ensures r.state.rotationOpts == s.rotationOpts.(methodName := Some(methodName))
    ensures r.state == s.(rotationOpts := r.state.rotationOpts, compsRot := r.state.compsRot)
    ensures methodName !in RotationMethods ==> r.out == Raised(UnknownRotationMethod(methodName))
    ensures r.out.Done? <==> methodName in RotationMethods && rotate(RotatorFor(methodName).value, RotationTarget(s)).Some?
    ensures r.out.Done? ==> r.state.compsRot == rotate(RotatorFor(methodName).value, RotationTarget(s))
    ensures r.out.Raised? ==> r.state.compsRot == s.compsRot
    ensures Consistent(s) ==> Consistent(r.state)
  {
    var s1 := s.(rotationOpts := s.rotationOpts.(methodName := Some(methodName)));
    match RotatorFor(methodName)
    case None => Step(Raised(UnknownRotationMethod(methodName)), s1)
    case Some(rot) =>
      match rotate(rot, RotationTarget(s))
      case None => Step(Raised(CollaboratorFailed), s1)
      case Some(m) => Step(Done, s1.(compsRot := Some(m)))
  }

  // ---------------------------------------------------------------------------
  // get_component_scores

  /**
   * `if data_opts['preproc_demean']: input_data -= data_opts['input_mean']`:
   * a falsy flag (the covariance path stores `None`) leaves the data alone.
   */
  function DemeanStep(opts: DataOpts, x: Mat): (r: Result<Mat, Error>)
    ensures opts.preprocDemean.None? ==> r == Err(KeyError("preproc_demean"))
    ensures opts.preprocDemean.Some? && !Truthy(opts.preprocDemean.value) ==> r == Ok(x)
    ensures opts.preprocDemean.Some? && Truthy(opts.preprocDemean.value) ==>
      match opts.inputMean
      case None => r == Err(KeyError("input_mean"))
      case Some(None) => r == Err(TypeError)
      case Some(Some(m)) => if Broadcasts(m, x.cols) then r == Ok(SubtractRowVector(x, m)) else r == Err(ShapeMismatch)
    ensures r.Ok? ==> r.value.rows == x.rows && r.value.cols == x.cols
  {
    match opts.preprocDemean
    case None => Err(KeyError("preproc_demean"))
    case Some(flag) =>
      if !Truthy(flag) then Ok(x)
      else
        match opts.inputMean
        case None => Err(KeyError("input_mean"))
        case Some(None) => Err(TypeError)
        case Some(Some(m)) => if Broadcasts(m, x.cols) then Ok(SubtractRowVector(x, m)) else Err(ShapeMismatch)
  }

  /** `if data_opts['preproc_scale']: input_data /= data_opts['input_scale']`. */
  function ScaleStep(opts: DataOpts, x: Mat): (r: Result<Mat, Error>)
    requires ScaleUsable(opts)
    ensures opts.preprocScale.None? ==> r == Err(KeyError("preproc_scale"))
    ensures opts.preprocScale == Some(false) ==> r == Ok(x)
    ensures opts.preprocScale == Some(true) ==>
      match opts.inputScale
      case None => r == Err(KeyError("input_scale"))
      case Some(v) => if Broadcasts(v, x.cols) then r == Ok(DivideByRowVector(x, v)) else r == Err(ShapeMismatch)
    ensures r.Ok? ==> r.value.rows == x.rows && r.value.cols == x.cols
  {
    match opts.preprocScale
    case None => Err(KeyError("preproc_scale"))
    case Some(scaling) =>
      if !scaling then Ok(x)
      else
        match opts.inputScale
        case None => Err(KeyError("input_scale"))
        case Some(v) => if Broadcasts(v, x.cols) then Ok(DivideByRowVector(x, v)) else Err(ShapeMismatch)
  }

  /** The components scores are taken on: `comps_rot`, else `comps_paf`, else `comps_raw`. */
  function ScoringBasis(rot: Option<Mat>, paf: Option<Mat>, raw: Option<Mat>): (b: Option<Mat>)
    ensures b.None? <==> rot.None? && paf.None? && raw.None?
    ensures rot.Some? ==> b == rot
    ensures rot.None? && paf.Some? ==> b == paf
    ensures rot.None? && paf.None? ==> b == raw
  {
    if rot.Some? then rot else if paf.Some? then paf else raw
  }

  /** `input_data.dot(basis)`: raises when there are no components or the shapes do not chain. */
  function Project(x: Mat, basis: Option<Mat>): (r: Result<Mat, Error>)
    ensures basis.None? ==> r == Err(NoComponents)
    ensures basis.Some? && x.cols != basis.value.rows ==> r == Err(ShapeMismatch)
    ensures r.Ok? ==> basis.Some? && x.cols == basis.value.rows && r.value == MatMul(x, basis.value)
    ensures r.Ok? ==> r.value.rows == x.rows && r.value.cols == basis.value.cols
  {
    match basis
    case None => Err(NoComponents)
    case Some(b) => if x.cols != b.rows then Err(ShapeMismatch) else Ok(MatMul(x, b))
  }

  /** The scores, or the error raised, and the final contents of the caller's array. */
  datatype Scores = Scores(out: Result<Mat, Error>, work: Mat)

  /**
   * `get_component_scores(input_data)` on the state `s`: the array is centred
   * and scaled in place as `data_opts` says, and then projected onto the
   * preferred components. A failure part-way leaves the array as far as it
   * got.
   */
  function ScoreStep(s: ModelState, x: Mat): (r: Scores)
    requires ScaleUsable(s.dataOpts)
    ensures r.work.rows == x.rows && r.work.cols == x.cols
    ensures DemeanStep(s.dataOpts, x).Err? ==> r == Scores(Err(DemeanStep(s.dataOpts, x).error), x)
    ensures DemeanStep(s.dataOpts, x).Ok? && ScaleStep(s.dataOpts, DemeanStep(s.dataOpts, x).value).Err? ==>
      r == Scores(Err(ScaleStep(s.dataOpts, DemeanStep(s.dataOpts, x).value).error), DemeanStep(s.dataOpts, x).value)
    ensures DemeanStep(s.dataOpts, x).Ok? && ScaleStep(s.dataOpts, DemeanStep(s.dataOpts, x).value).Ok? ==>
      && r.work == ScaleStep(s.dataOpts, DemeanStep(s.dataOpts, x).value).value
      && r.out == Project(r.work, ScoringBasis(s.compsRot, s.compsPaf, s.compsRaw))
    ensures r.out.Ok? ==> ScoringBasis(s.compsRot, s.compsPaf, s.compsRaw).Some?
  {
    match DemeanStep(s.dataOpts, x)
    case Err(e) => Scores(Err(e), x)
    case Ok(centred) =>
      match ScaleStep(s.dataOpts, centred)
      case Err(e) => Scores(Err(e), centred)
      case Ok(scaled) => Scores(Project(scaled, ScoringBasis(s.compsRot, s.compsPaf, s.compsRaw)), scaled)
  }

  /**
   * Scoring the very data a per-sample load was made from repeats that load's
   * preprocessing: the array ends as the working data whose covariance was stored.
   */
  lemma ScoringRepeatsSamplePreprocessing(s: ModelState, x: Mat, scale: seq<real>, demean: bool, scaling: bool)
    requires s.dataOpts.preprocDemean == Some(BoolFlag(demean)) && s.dataOpts.preprocScale == Some(scaling)
    requires SampleScaleFits(s.dataOpts, x, scale)
    ensures ScoreStep(LoadSampleStep(s, x, scale).state, x).work == LoadSampleStep(s, x, scale).work
  {
  }

  /**
   * A model loaded as a covariance matrix never centres data it scores:
   * `preproc_demean` is `None` there.
   */
  lemma CovarianceModelNeverDemeans(s: ModelState, x: Mat, scale: seq<real>, y: Mat)
    requires s.dataOpts.preprocDemean == Some(NoneFlag)
    requires CovScaleFits(s.dataOpts, x, scale)
    ensures DemeanStep(LoadCovStep(s, x, scale).state.dataOpts, y) == Ok(y)
  {
  }

  // ---------------------------------------------------------------------------
  // The object

  class FactorAnalysis {
    var dataCovar: Option<Mat>
    var noiseCovar: Option<Mat>
    var dataOpts: DataOpts
    var retentionOpts: RetentionOpts
    var rotationOpts: RotationOpts
    var compsRaw: Option<Mat>
    var compsPaf: Option<Mat>
    var compsRot: Option<Mat>
    var propsRaw: Option<seq<real>>
    var retainIdx: Option<seq<int>>

    /** The object's fields as a value. */
    function State(): ModelState
      reads this
    {
      ModelState(dataCovar, noiseCovar, dataOpts, retentionOpts, rotationOpts,
                 compsRaw, compsPaf, compsRot, propsRaw, retainIdx)
    }

    ghost predicate Valid()
      reads this
    {
      Consistent(State())
    }

    /** `__init__`: every field `None`, every options dictionary empty. */
    constructor ()
      ensures State() == InitialState
      ensures Valid()
    {
      dataCovar := None;
      noiseCovar := None;
      dataOpts := NoDataOpts;
      retentionOpts := NoRetentionOpts;
      rotationOpts := RotationOpts(None);
      compsRaw := None;
      compsPaf := None;
      compsRot := None;
      propsRaw := None;
      retainIdx := None;
    }

    /**
     * `load_data(data, is_cov)`: anything but a numpy array is refused before
     * anything changes; otherwise the array is brought into shape in place and
     * the covariance stored, as `LoadDataStep` describes. `scale` stands for
     * the `np.sqrt(...)` the source computes.
     */
    method LoadData(data: PyInput, isCov: bool, scale: seq<real>) returns (out: Outcome)
      requires Valid()
      requires data.NumpyArray? ==> LoadArgumentsFit(dataOpts, InPlace.Grid(data.arr), isCov, scale)
      modifies this, if data.NumpyArray? then {data.arr} else {}
      ensures Valid()
      ensures data.NotNumpy? ==> out == Raised(TypeError) && State() == old(State())
      ensures data.NumpyArray? ==>
        && out == LoadDataStep(old(State()), old(InPlace.Grid(data.arr)), isCov, scale).out
        && State() == LoadDataStep(old(State()), old(InPlace.Grid(data.arr)), isCov, scale).state
        && InPlace.Grid(data.arr) == LoadDataStep(old(State()), old(InPlace.Grid(data.arr)), isCov, scale).work
    {
      if data.NotNumpy? {
        return Raised(TypeError);
      }
      var a := data.arr;
      ghost var x := InPlace.Grid(a);
      ghost var s := State();
      if isCov {
        if a.Length0 != a.Length1 {
          return Raised(NonSquareMatrix);
        }
        dataOpts := dataOpts.(inputMean := Some(None), inputScale := Some(scale));
        if dataOpts.preprocScale.None? {
          return Raised(KeyError("preproc_scale"));
        }
        if dataOpts.preprocScale.value {
          InPlace.DivideColumns(a, scale);
          InPlace.DivideRows(a, scale);
        }
        dataCovar := Some(InPlace.Grid(a));
        out := Done;
      } else {
        dataOpts := dataOpts.(inputMean := Some(Some(ColumnMeans(InPlace.Grid(a)))));
        if dataOpts.preprocDemean.None? {
          return Raised(KeyError("preproc_demean"));
        }
        if Truthy(dataOpts.preprocDemean.value) {
          InPlace.Subtract(a, dataOpts.inputMean.value.value);
        }
        assert InPlace.Grid(a) == Centred(x, Truthy(dataOpts.preprocDemean.value));
        dataOpts := dataOpts.(inputScale := Some(scale));
        if dataOpts.preprocScale.None? {
          return Raised(KeyError("preproc_scale"));
        }
        if dataOpts.preprocScale.value {
          InPlace.DivideColumns(a, scale);
        }
        dataCovar := Some(Covariance(InPlace.Grid(a)));
        out := Done;
      }
    }

    /**
     * `load_data_samples(input_data, labels, preproc_demean, preproc_scale)`:
     * the caller's array is copied and left alone, the labels are cleaned
     * (a wrong count raises before anything is built), and a fresh object is
     * loaded along the sample path.
     */
    static method LoadDataSamples(input: array2<real>, labels: Option<seq<Label>>, demean: bool, scaling: bool, scale: seq<real>)
      returns (r: Result<FactorAnalysis, Error>)
      requires CleanupLabels(input.Length1, labels).Ok? ==>
        && input.Length0 >= 2
        && IsRootMeanSquare(scale, Centred(InPlace.Grid(input), demean))
        && (scaling ==> Positive(scale))
      ensures unchanged(input)
      ensures r.Err? <==> CleanupLabels(input.Length1, labels).Err?
      ensures r.Err? ==> r.error == LabelCountMismatch
      ensures r.Ok? ==>
        && fresh(r.value)
        && r.value.Valid()
        && r.value.State() ==
             LoadSampleStep(InitialState.(dataOpts := SampleOpts(demean, scaling, CleanupLabels(input.Length1, labels).value)),
                            InPlace.Grid(input), scale).state
    {
      var fa := new FactorAnalysis();
      var data := InPlace.Copy(input);
      var cleaned := CleanupLabels(data.Length1, labels);
      if cleaned.Err? {
        return Err(cleaned.error);
      }
      fa.dataOpts := SampleOpts(demean, scaling, cleaned.value);
      var out := fa.LoadData(NumpyArray(data), false, scale);
      // Both flags are set, so the sample path cannot stop at a KeyError.
      assert out == Done;
      r := Ok(fa);
    }

    /**
     * `load_data_cov(input_data, labels, preproc_scale)`: as
     * `load_data_samples`, along the covariance path, with `preproc_demean`
     * set to `None`; a non-square matrix raises and no object is returned.
     */
    static method LoadDataCov(input: array2<real>, labels: Option<seq<Label>>, scaling: bool, scale: seq<real>)
      returns (r: Result<FactorAnalysis, Error>)
      requires CleanupLabels(input.Length1, labels).Ok? && input.Length0 == input.Length1 ==>
        && IsRootOfDiagonal(scale, InPlace.Grid(input))
        && (scaling ==> Positive(scale))
      ensures unchanged(input)
      ensures r.Err? <==> CleanupLabels(input.Length1, labels).Err? || input.Length0 != input.Length1
      ensures CleanupLabels(input.Length1, labels).Err? ==> r == Err(LabelCountMismatch)
      ensures CleanupLabels(input.Length1, labels).Ok? && input.Length0 != input.Length1 ==> r == Err(NonSquareMatrix)
      ensures r.Ok? ==>
        && fresh(r.value)
        && r.value.Valid()
        && r.value.State() ==
             LoadCovStep(InitialState.(dataOpts := CovOpts(scaling, CleanupLabels(input.Length1, labels).value)),
                         InPlace.Grid(input), scale).state
    {
      var fa := new FactorAnalysis();
      var data := InPlace.Copy(input);
      var cleaned := CleanupLabels(data.Length1, labels);
      if cleaned.Err? {
        return Err(cleaned.error);
      }
      fa.dataOpts := CovOpts(scaling, cleaned.value);
      var out := fa.LoadData(NumpyArray(data), true, scale);
      if out.Raised? {
        return Err(out.error);
      }
      r := Ok(fa);
    }

    /**
     * `add_noise_cov(input_data)`: checks, in this order, that the argument is
     * a numpy array, that data has been loaded, that the matrix is square and
     * that it matches `data_covar`; it stores nothing, whatever the result.
     */
    method AddNoiseCov(input: PyInput) returns (out: Outcome)
      ensures input.NotNumpy? ==> out == Raised(TypeError)
      ensures input.NumpyArray? && dataCovar.None? ==> out == Raised(DataNotLoaded)
      ensures input.NumpyArray? && dataCovar.Some? && input.arr.Length0 != input.arr.Length1 ==>
        out == Raised(NonSquareMatrix)
      ensures input.NumpyArray? && dataCovar.Some? && input.arr.Length0 == input.arr.Length1
              && input.arr.Length0 != dataCovar.value.rows ==>
        out == Raised(DimensionMismatch)
      ensures out == Done <==>
        input.NumpyArray? && dataCovar.Some? && input.arr.Length0 == input.arr.Length1
        && input.arr.Length0 == dataCovar.value.rows
    {
      if input.NotNumpy? {
        return Raised(TypeError);
      }
      if dataCovar.None? {
        return Raised(DataNotLoaded);
      }
      if input.arr.Length0 != input.arr.Length1 {
        return Raised(NonSquareMatrix);
      }
      if input.arr.Length0 != dataCovar.value.rows {
        return Raised(DimensionMismatch);
      }
      out := Done;
    }

    /** `extract_components`, as `ExtractStep` describes. */
    method ExtractComponents(extract: (Option<Mat>, Option<Mat>) -> Option<(Mat, seq<real>)>) returns (out: Outcome)
      requires Valid()
      modifies this
      ensures Valid()
      ensures out == ExtractStep(old(State()), extract).out && State() == ExtractStep(old(State()), extract).state
    {
      var result := extract(dataCovar, noiseCovar);
      if result.None? {
        return Raised(CollaboratorFailed);
      }
      compsRaw := Some(result.value.0);
      propsRaw := Some(result.value.1);
      out := Done;
    }

    /** `find_comps_to_retain(method, **kwargs)`, as `RetainStep` describes. */
    method FindCompsToRetain(methodName: string, args: RetentionArgs,
                             fitStick: Option<seq<real>> -> Option<Stick>,
                             retain: RetentionCall -> Option<seq<int>>) returns (r: Result<seq<int>, Error>)
      requires Valid()
      modifies this
      ensures Valid()
      ensures r == RetainStep(old(State()), methodName, args, fitStick, retain).out
      ensures State() == RetainStep(old(State()), methodName, args, fitStick, retain).state
    {
      retentionOpts := retentionOpts.(methodName := Some(methodName));
      if methodName == "top_n" {
        retentionOpts := retentionOpts.(numKeep := Some(args.numKeep.GetOr(DefaultNumKeep)));
      } else if methodName == "top_pct" {
        retentionOpts := retentionOpts.(pctKeep := Some(args.pctKeep.GetOr(DefaultPctKeep)));
      } else if methodName == "kaiser" {
        if propsRaw.None? {
          return Err(TypeError);
        }
        retentionOpts := retentionOpts.(dataDim := Some(args.dataDim.GetOr(|propsRaw.value|)));
      } else if methodName == "broken_stick" {
        var stick := fitStick(propsRaw);
        if stick.None? {
          return Err(CollaboratorFailed);
        }
        retentionOpts := retentionOpts.(fitStick := stick);
      } else {
        return Err(UnknownRetentionMethod(methodName));
      }

      var call;
      if methodName == "top_n" {
        call := TopNRule(propsRaw, retentionOpts.numKeep.value);
      } else if methodName == "top_pct" {
        call := TopPctRule(propsRaw, retentionOpts.pctKeep.value);
      } else if methodName == "kaiser" {
        call := KaiserRule(propsRaw.value, retentionOpts.dataDim.value);
      } else {
        call := BrokenStickRule(propsRaw, retentionOpts.fitStick.value);
      }
      var idx := retain(call);
      if idx.None? {
        return Err(CollaboratorFailed);
      }
      retainIdx := idx;
      r := Ok(idx.value);
    }

    /** `reextract_using_paf`, as `PafStep` describes. */
    method ReextractUsingPaf(paf: (Mat, Option<seq<int>>, Option<Mat>, Option<Mat>) -> Option<Mat>) returns (out: Outcome)
      requires Valid()
      modifies this
      ensures Valid()
      ensures out == PafStep(old(State()), paf).out && State() == PafStep(old(State()), paf).state
    {
      if compsRaw.None? {
        return Raised(TypeError);
      }
      var result := paf(compsRaw.value, retainIdx, dataCovar, noiseCovar);
      if result.None? {
        return Raised(CollaboratorFailed);
      }
      compsPaf := result;
      out := Done;
    }

    /** `rotate_components(method)`, as `RotateStep` describes. */
    method RotateComponents(methodName: string, rotate: (Rotator, Option<Mat>) -> Option<Mat>) returns (out: Outcome)
      requires Valid()
      modifies this
      ensures Valid()
      ensures out == RotateStep(old(State()), methodName, rotate).out && State() == RotateStep(old(State()), methodName, rotate).state
    {
      rotationOpts := rotationOpts.(methodName := Some(methodName));
      var rot := RotatorFor(methodName);
      if rot.None? {
        return Raised(UnknownRotationMethod(methodName));
      }
      var result;
      if compsPaf.Some? {
        result := rotate(rot.value, compsPaf);
      } else {
        result := rotate(rot.value, compsRaw);
      }
      if result.None? {
        return Raised(CollaboratorFailed);
      }
      compsRot := result;
      out := Done;
    }

    /**
     * `get_component_scores(input_data)`: the caller's array is centred and
     * scaled in place, then projected, as `ScoreStep` describes; the object
     * itself does not change.
     */
    method GetComponentScores(input: array2<real>) returns (r: Result<Mat, Error>)
      requires Valid()
      modifies input
      ensures r == ScoreStep(State(), old(InPlace.Grid(input))).out
      ensures InPlace.Grid(input) == ScoreStep(State(), old(InPlace.Grid(input))).work
    {
      ghost var x := InPlace.Grid(input);
      if dataOpts.preprocDemean.None? {
        return Err(KeyError("preproc_demean"));
      }
      if Truthy(dataOpts.preprocDemean.value) {
        if dataOpts.inputMean.None? {
          return Err(KeyError("input_mean"));
        }
        if dataOpts.inputMean.value.None? {
          return Err(TypeError);
        }
        if !Broadcasts(dataOpts.inputMean.value.value, input.Length1) {
          return Err(ShapeMismatch);
        }
        InPlace.Subtract(input, dataOpts.inputMean.value.value);
      }
      assert DemeanStep(dataOpts, x) == Ok(InPlace.Grid(input));
      ghost var centred := InPlace.Grid(input);
      if dataOpts.preprocScale.None? {
        return Err(KeyError("preproc_scale"));
      }
      if dataOpts.preprocScale.value {
        if dataOpts.inputScale.None? {
          return Err(KeyError("input_scale"));
        }
        if !Broadcasts(dataOpts.inputScale.value, input.Length1) {
          return Err(ShapeMismatch);
        }
        InPlace.DivideColumns(input, dataOpts.inputScale.value);
      }
      assert ScaleStep(dataOpts, centred) == Ok(InPlace.Grid(input));
      r := Project(InPlace.Grid(input), ScoringBasis(compsRot, compsPaf, compsRaw));
    }
  }
}
