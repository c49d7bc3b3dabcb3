/** `LinearRegression` with the experimental ReduceSum ("sum workaround") fitting
    path: shape derivation, the power-of-two / single-target guard, the deep copy of
    the training features, the stripped hyperparameters handed to the float trainer,
    and the artifacts the fit records on the estimator. */
module LinearRegressionFit {
  import opened Results
  import opened Params
  import opened PowerOfTwo

  /** A numpy array as a value: its shape tuple and its elements in row-major order. */
  datatype Tensor = Tensor(shape: seq<nat>, data: seq<real>)

  /** numpy's `size`: the product of the dimensions. */
  function Size(shape: seq<nat>): nat {
    if shape == [] then 1 else shape[0] * Size(shape[1..])
  }

  /** One entry along the first axis holds no more elements than the whole array. */
  lemma TailSizeBounded(shape: seq<nat>)
    requires |shape| >= 1 && shape[0] >= 1
    ensures Size(shape[1..]) <= Size(shape)
  {
  }

  /** `X[:1]`: at most the first entry along the first axis, other axes kept. */
  function FirstRow(x: Tensor): (r: Tensor)
    requires |x.shape| >= 1
    ensures |r.shape| == |x.shape| && r.shape[1..] == x.shape[1..]
    ensures r.shape[0] <= 1 && (x.shape[0] >= 1 ==> r.shape[0] == 1)
    ensures r.data <= x.data
    ensures |x.data| == Size(x.shape) ==> |r.data| == r.shape[0] * Size(x.shape[1..])
  {
    var rows := if x.shape[0] >= 1 then 1 else 0;
    var len := rows * Size(x.shape[1..]);
    assert len <= Size(x.shape) by {
      if rows == 1 {
        TailSizeBounded(x.shape);
      }
    }
    Tensor([rows] + x.shape[1..], x.data[..if len <= |x.data| then len else |x.data|])
  }

  /** Why the sum workaround refused to fit. */
  datatype FitError =
    | ShapeIndexError                                       // `X.shape[0]` on a 0-d array
    | SumWorkaroundUnsupported(features: nat, targets: nat) // both counts named
    | ValidationError                                       // raised by `check_X_y_and_assert`
  {
    /** The text of the guard's assertion, as the source writes it: the fixed
        explanation, both counts in decimal, and the run-together ending. */
    function Message(): (m: string)
      requires SumWorkaroundUnsupported?
      ensures |m| == |GuardMessagePrefix| + |Decimal(features)| + |GuardMessageMiddle|
        + |Decimal(targets)| + |GuardMessageEndAsWritten|
      ensures m[..|GuardMessagePrefix|] == GuardMessagePrefix
      ensures m[|GuardMessagePrefix|..|GuardMessagePrefix| + |Decimal(features)|] == Decimal(features)
      ensures m[|GuardMessagePrefix| + |Decimal(features)|..][..|GuardMessageMiddle|] == GuardMessageMiddle
      ensures m[|GuardMessagePrefix| + |Decimal(features)| + |GuardMessageMiddle|..][..|Decimal(targets)|]
        == Decimal(targets)
      ensures m[|m| - |GuardMessageEndAsWritten|..] == GuardMessageEndAsWritten
      ensures |m| + 1 == |GuardMessage(features, targets)|
    {
      GuardMessageAsWritten(features, targets)
    }
  }

  /** What `fit` did: handed over to the parent class, fitted here, or raised. */
  datatype FitOutcome = Delegated | Fitted | Failed(error: FitError)

  /** Feature count: `X.shape[1]` for an array of two or more dimensions, else
      `X.shape[0]`; a 0-d array has no such entry. */
  function FeatureCount(xShape: seq<nat>): Option<nat> {
    if |xShape| > 1 then Some(xShape[1])
    else if |xShape| == 1 then Some(xShape[0])
    else None
  }

  /** Target count: `y.shape[1]` for an array of two or more dimensions, else 1. */
  function TargetCount(yShape: seq<nat>): nat {
    if |yShape| > 1 then yShape[1] else 1
  }

  /** The guard of the sum workaround. It accepts exactly a positive power-of-two
      feature count with a single target; otherwise the error names both counts. */
  function SumWorkaroundGuard(xShape: seq<nat>, yShape: seq<nat>): (r: Result<nat, FitError>)
    ensures FeatureCount(xShape).None? <==> r == Err(ShapeIndexError)
    ensures r.Ok? <==>
      FeatureCount(xShape).Some? && IsPowerOfTwo(FeatureCount(xShape).value) && TargetCount(yShape) == 1
    ensures r.Ok? ==> r.value == FeatureCount(xShape).value
    ensures FeatureCount(xShape).Some? && r.Err? ==>
      r.error == SumWorkaroundUnsupported(FeatureCount(xShape).value, TargetCount(yShape))
  {
    match FeatureCount(xShape)
    case None => Err(ShapeIndexError)
    case Some(n) =>
      var t := TargetCount(yShape);
      HasSingleBitIffPowerOfTwo(n);
      if HasSingleBit(n) && t == 1 then Ok(n) else Err(SumWorkaroundUnsupported(n, t))
  }

  /** Python's `str(n)` for a natural number: its decimal digits, no leading zero. */
  function Decimal(n: nat): (r: string)
    ensures |r| >= 1 && forall i | 0 <= i < |r| :: '0' <= r[i] <= '9'
    ensures r[0] == '0' ==> n == 0
  {
    if n < 10 then [(48 + n) as char] else Decimal(n / 10) + [(48 + n % 10) as char]
  }

  /** Reads a string of decimal digits back as a number. */
  function ParseDecimal(s: string): nat {
    if s == [] then 0
    else
      var c := s[|s| - 1];
      ParseDecimal(s[..|s| - 1]) * 10 + (if '0' <= c <= '9' then c as int - 48 else 0)
  }

  /** The count written into a message can be read back exactly. */
  lemma {:induction false} DecimalRoundTrip(n: nat)
    ensures ParseDecimal(Decimal(n)) == n
  {
    if n >= 10 {
      DecimalRoundTrip(n / 10);
      assert Decimal(n)[..|Decimal(n)| - 1] == Decimal(n / 10);
    }
  }

  /** The fixed text of the guard's message, around the two counts. */
  const GuardMessagePrefix: string :=
    "The sum workaround currently only handles N features with N a power of 2 and "
    + "single target values while "
  const GuardMessageMiddle: string := " features and "

  /** The end of the message as the source writes it: the adjacent literals
      " target(s)" and "were given." are joined with no space between them. */
  const GuardMessageEndAsWritten: string := " target(s)" + "were given."

  /** The end of the message as evidently intended. */
  const GuardMessageEnd: string := " target(s) were given."

  /** Where the pieces of `pre + a + mid + b + suf` sit. */
  lemma Layout(pre: string, a: string, mid: string, b: string, suf: string)
    ensures var m := pre + a + mid + b + suf;
      && |m| == |pre| + |a| + |mid| + |b| + |suf|
      && m[..|pre|] == pre
      && m[|pre|..|pre| + |a|] == a
      && m[|pre| + |a|..][..|mid|] == mid
      && m[|pre| + |a| + |mid|..][..|b|] == b
      && m[|m| - |suf|..] == suf
  {
  }

  /** A message naming two counts: `prefix`, the feature count in decimal, `middle`,
      the target count in decimal, then `end`. Each count's digits sit at a known
      position, from which `DecimalRoundTrip` reads the count back. */
  function CountsMessage(prefix: string, middle: string, end: string, features: nat, targets: nat): (m: string)
    ensures |m| == |prefix| + |Decimal(features)| + |middle| + |Decimal(targets)| + |end|
    ensures m[..|prefix|] == prefix
    ensures m[|prefix|..|prefix| + |Decimal(features)|] == Decimal(features)
    ensures m[|prefix| + |Decimal(features)|..][..|middle|] == middle
    ensures m[|prefix| + |Decimal(features)| + |middle|..][..|Decimal(targets)|] == Decimal(targets)
    ensures m[|m| - |end|..] == end
  {
    Layout(prefix, Decimal(features), middle, Decimal(targets), end);
    prefix + Decimal(features) + middle + Decimal(targets) + end
  }

  /** The guard's message as the source writes it, which runs "target(s)" and
      "were given." together. */
  function GuardMessageAsWritten(features: nat, targets: nat): string {
    CountsMessage(GuardMessagePrefix, GuardMessageMiddle, GuardMessageEndAsWritten, features, targets)
  }

  /** The message the guard evidently means: the same counts, with a space before
      "were given.". */
  function GuardMessage(features: nat, targets: nat): (m: string)
    ensures |m| >= |GuardMessageEnd| && m[|m| - |GuardMessageEnd|..] == GuardMessageEnd
  {
    CountsMessage(GuardMessagePrefix, GuardMessageMiddle, GuardMessageEnd, features, targets)
  }

  /** As written, the message has ")" of "target(s)" directly followed by "w" of
      "were", and is one character (the missing space) short of the intended one, so
      the two differ for every pair of counts. */
  lemma GuardMessageRunsWordsTogether(features: nat, targets: nat)
    ensures var m := GuardMessageAsWritten(features, targets);
      |m| >= 12 && m[|m| - 12] == ')' && m[|m| - 11] == 'w'
    ensures |GuardMessageAsWritten(features, targets)| + 1 == |GuardMessage(features, targets)|
    ensures GuardMessageAsWritten(features, targets) != GuardMessage(features, targets)
  {
  }

  /** A 4 x 3 feature table is refused and the error names 3 features and 1 target. */
  lemma ThreeFeaturesRefused()
    ensures SumWorkaroundGuard([4, 3], [4]) == Err(SumWorkaroundUnsupported(3, 1))
  {
  }

  /** Any 2-D feature table with 2^k columns and a 1-D target passes the guard. */
  lemma PowerOfTwoColumnsAccepted(rows: nat, k: nat, targets: nat)
    ensures SumWorkaroundGuard([rows, Pow2(k)], [targets]) == Ok(Pow2(k))
  {
  }

  /** Coefficients of the fitted float model (`coef_`, `intercept_`). */
  datatype Coefficients = Coefficients(coef: Tensor, intercept: Tensor)

  /** The scikit-learn estimator: the keyword arguments it was built with, and its
      coefficients once fitted. */
  datatype FloatModel = FloatModel(params: map<string, Value>, fitted: Option<Coefficients>)

  /** The exported computation graph of the ReduceSum torch model: built from the
      trained weights and bias, with `X[:1]` as the shape-fixing dummy input. */
  datatype Graph = ReduceSumGraph(weights: Tensor, bias: Tensor, dummyInput: Tensor)

  /** The result of post-training affine quantization of a graph, calibrated on a
      feature table. */
  datatype QuantizedModule = QuantizedModule(graph: Graph, nBits: Value, isSigned: bool, calibration: Tensor)

  /** `check_X_y_and_assert(X, y, multi_output)`: the validated pair, or None when it raises. */
  type Validator = (Tensor, Tensor, bool) -> Option<(Tensor, Tensor)>

  /** `sklearn_alg(**params).fit(X, y)`: the coefficients it learns. */
  type Trainer = (map<string, Value>, Tensor, Tensor) -> Coefficients

  /** scikit-learn's validator always returns a feature array with at least one axis. */
  ghost predicate ReturnsArray(checkXy: Validator) {
    forall x, y, multi :: checkXy(x, y, multi).Some? ==> |checkXy(x, y, multi).value.0.shape| >= 1
  }

  /** A caller-owned numpy array whose elements can be written in place. */
  class NdArray {
    const shape: seq<nat>
    const data: array<real>

    constructor (shape: seq<nat>, contents: seq<real>)
      ensures this.shape == shape && data[..] == contents && fresh(data)
    {
      this.shape := shape;
      data := new real[|contents|](i requires 0 <= i < |contents| => contents[i]);
    }

    function Value(): Tensor
      reads data
    {
      Tensor(shape, data[..])
    }

    /** `copy.deepcopy(X)`: a new array with new storage and the same contents. */
    method DeepCopy() returns (c: NdArray)
      ensures fresh(c) && fresh(c.data)
      ensures c.Value() == Value()
    {
      c := new NdArray(shape, data[..]);
    }
  }

  /** The set of constructor parameters, which is what `get_params()` reports. */
  const ParamNames: set<string> :=
    {"n_bits", "use_sum_workaround", "fit_intercept", "normalize", "copy_X", "n_jobs", "positive"}

  class LinearRegression {
    var nBits: Value
    var useSumWorkaround: Value
    var fitIntercept: Value
    var normalize: Value
    var copyX: Value
    var nJobs: Value
    var positive: Value

    var sklearnModel: Option<FloatModel>
    var onnxModel: Option<Graph>
    var quantizedModule: Option<QuantizedModule>

    /** Stores every hyperparameter as given; the estimator starts without a graph. */
    constructor (
      nBits: Value := IntV(2),
      useSumWorkaround: Value := BoolV(false),
      fitIntercept: Value := BoolV(true),
      normalize: Value := StrV("deprecated"),
      copyX: Value := BoolV(true),
      nJobs: Value := NoneV,
      positive: Value := BoolV(false))
      ensures GetParams() == map[
        "n_bits" := nBits, "use_sum_workaround" := useSumWorkaround,
        "fit_intercept" := fitIntercept, "normalize" := normalize, "copy_X" := copyX,
        "n_jobs" := nJobs, "positive" := positive]
      ensures sklearnModel == None && onnxModel == None && quantizedModule == None
    {
      this.nBits := nBits;
      this.useSumWorkaround := useSumWorkaround;
      this.fitIntercept := fitIntercept;
      this.normalize := normalize;
      this.copyX := copyX;
      this.nJobs := nJobs;
      this.positive := positive;
      sklearnModel := None;
      onnxModel := None;
      quantizedModule := None;
    }

    /** scikit-learn's `get_params()`: each constructor parameter name with the value
        stored under it. */
    function GetParams(): (p: map<string, Value>)
      reads this`nBits, this`useSumWorkaround, this`fitIntercept, this`normalize
      reads this`copyX, this`nJobs, this`positive
    {
      map[
        "n_bits" := nBits, "use_sum_workaround" := useSumWorkaround,
        "fit_intercept" := fitIntercept, "normalize" := normalize, "copy_X" := copyX,
        "n_jobs" := nJobs, "positive" := positive]
    }

    /** The tail of the workaround path: build the float model on the stripped
        parameters, train it, export its ReduceSum graph with `X[:1]` as dummy input,
        and quantize that graph (signed, `n_bits`) calibrated on `X`. */
    method TrainAndQuantize(xs: Tensor, ys: Tensor, train: Trainer)
      requires |xs.shape| >= 1
      modifies this`sklearnModel, this`onnxModel, this`quantizedModule
      ensures
        var params := StripQuantizationParams(GetParams());
        var learned := train(params, xs, ys);
        && sklearnModel == Some(FloatModel(params, Some(learned)))
        && onnxModel == Some(ReduceSumGraph(learned.coef, learned.intercept, FirstRow(xs)))
        && quantizedModule == Some(QuantizedModule(onnxModel.value, nBits, true, xs))
    {
      var params := GetParams();
      params := Pop(params, "n_bits", NoneV).0;
      params := Pop(params, "use_sum_workaround", NoneV).0;
      sklearnModel := Some(FloatModel(params, None));

      var learned := train(params, xs, ys);
      sklearnModel := Some(FloatModel(params, Some(learned)));

      var graph := ReduceSumGraph(learned.coef, learned.intercept, FirstRow(xs));
      onnxModel := Some(graph);

      quantizedModule := Some(QuantizedModule(graph, nBits, true, xs));
    }

    /** `fit(X, y)`. Without the workaround it hands over to the parent class and
        makes no field update of its own; what the parent's fit then stores is not
        part of this model, so `Delegated` leaves the fields as they were. With it,
        it checks the shapes, copies `X`, validates, builds and trains the float
        model on the stripped parameters, and records the exported graph and its
        quantized module. The caller's `X` is never written. */
    method Fit(X: NdArray, y: Tensor, checkXy: Validator, train: Trainer) returns (outcome: FitOutcome)
      requires ReturnsArray(checkXy)
      modifies this
      ensures X.Value() == old(X.Value())
      ensures GetParams() == old(GetParams())
      ensures !Truthy(useSumWorkaround) ==> outcome == Delegated && unchanged(this)
      ensures Truthy(useSumWorkaround) && SumWorkaroundGuard(X.shape, y.shape).Err? ==>
        outcome == Failed(SumWorkaroundGuard(X.shape, y.shape).error) && unchanged(this)
      ensures (Truthy(useSumWorkaround) && SumWorkaroundGuard(X.shape, y.shape).Ok?
               && checkXy(X.Value(), y, Size(y.shape) > 1).None?) ==>
        outcome == Failed(ValidationError) && unchanged(this)
      ensures outcome == Fitted <==>
        Truthy(useSumWorkaround) && SumWorkaroundGuard(X.shape, y.shape).Ok?
        && checkXy(X.Value(), y, Size(y.shape) > 1).Some?
      ensures outcome == Fitted ==>
        var checked := checkXy(X.Value(), y, Size(y.shape) > 1).value;
        var params := StripQuantizationParams(GetParams());
        var learned := train(params, checked.0, checked.1);
        && sklearnModel == Some(FloatModel(params, Some(learned)))
        && onnxModel == Some(ReduceSumGraph(learned.coef, learned.intercept, FirstRow(checked.0)))
        && quantizedModule == Some(QuantizedModule(onnxModel.value, nBits, true, checked.0))
    {
      if !Truthy(useSumWorkaround) {
        return Delegated;
      }

      var guard := SumWorkaroundGuard(X.shape, y.shape);
      if guard.Err? {
        return Failed(guard.error);
      }

      var xCopy := X.DeepCopy();

      var checked := checkXy(xCopy.Value(), y, Size(y.shape) > 1);
      if checked.None? {
        return Failed(ValidationError);
      }
      var (xs, ys) := checked.value;

      TrainAndQuantize(xs, ys, train);
      return Fitted;
    }
  }

  /** `get_params()` names the seven constructor parameters, and the trainer never
      sees a quantization key: it receives exactly the five scikit-learn
      `LinearRegression` keyword arguments, with their stored values. */
  lemma TrainerParamsAreSklearnParams(model: LinearRegression)
    ensures model.GetParams().Keys == ParamNames
    ensures StripQuantizationParams(model.GetParams()).Keys
      == {"fit_intercept", "normalize", "copy_X", "n_jobs", "positive"}
    ensures QuantizationKeys !! StripQuantizationParams(model.GetParams()).Keys
  {
  }
}
