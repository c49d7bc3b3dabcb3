# Verified model of the concrete-ml linear models (`linear_model.py`)

This project models the self-contained logic of `src/concrete/ml/sklearn/linear_model.py`
in concrete-ml, the library that turns scikit-learn linear models into quantized,
integer-only graphs that can run under fully homomorphic encryption. It proves properties
of two pieces.

1. **`LinearRegression.fit` with the experimental ReduceSum "sum workaround".** This
   covers three steps:
   - the derivation of the feature count and target count from the array shapes;
   - the guard `N != 0 and N & (N - 1) == 0 and targets == 1` and its error message;
   - the deep copy of `X`.

   It also covers the hyperparameter dictionary handed to the float trainer, which is
   `get_params()` with `n_bits` and `use_sum_workaround` popped. Last, it covers the
   artifacts that `fit` records on the estimator: `sklearn_model`, `_onnx_model_` and
   `quantized_module_`. This part is imperative Dafny. `LinearRegression` is a class with
   one field per hyperparameter and per artifact. `Fit` is a method with a `modifies this`
   frame. The caller's feature array is an `NdArray` object that `Fit` copies and never
   writes.
2. **`LogisticRegression` post-processing, `predict_proba` and `predict`.** A score
   table with one column becomes `(1 - p, p)` per row. A wider table becomes a row-wise
   `exp`-then-normalize table, with no max-subtraction. `predict` takes the first maximal
   index per row. This part is written as pure functions over `seq<seq<real>>`. `exp` is
   any strictly positive function of the reals, passed as a parameter.

Modules:
- `Results` (`results.dfy`) holds the Option and Result datatypes.
- `Params` (`params.dfy`) holds hyperparameter values, Python truthiness, `dict.pop` and
  the stripping of the two quantization keys.
- `PowerOfTwo` (`power_of_two.dfy`) holds Python `&` on naturals and the proof that the
  bit trick decides exactly the powers of two.
- `LinearRegressionFit` (`linear_regression.dfy`) holds the guard and its message, the
  `NdArray` and `LinearRegression` classes, and `Fit`.
- `LogisticPostProcessing` (`logistic_regression.dfy`) holds the normalisation,
  `predict_proba` and `predict`.

## Notes on the source's behaviour
- In `post_processing` (`src/concrete/ml/sklearn/linear_model.py:309-311`), the binary
  branch takes the single column `p` as already being a probability, since the sigmoid
  is part of the exported graph. It forms `(1 - p, p)` from the column as it is. The
  model's `Complement` does the same and applies no logistic function of its own.
- The guard is an `assert_true`, so it raises an assertion error. The model's
  `SumWorkaroundUnsupported(features, targets)` carries both counts. Its `Message()` is
  the text the guard writes, including the missing space (see Findings).

## Model
| member | source | states |
|---|---|---|
| `PowerOfTwo.BitAnd` | src/concrete/ml/sklearn/linear_model.py:86 | Python's `&` on non-negative integers never exceeds either operand |
| `PowerOfTwo.HasSingleBitIffPowerOfTwo` | src/concrete/ml/sklearn/linear_model.py:86 | `N != 0 and N & (N - 1) == 0` holds exactly when N is 2^k for some k, including the rejection of N = 0 |
| `PowerOfTwo.PowersOfTwoPass` | src/concrete/ml/sklearn/linear_model.py:86 | every power of two passes the bit test |
| `LinearRegressionFit.SumWorkaroundGuard` | src/concrete/ml/sklearn/linear_model.py:82-90 | the feature count is `X.shape[1]` for 2-D or wider arrays and `X.shape[0]` otherwise; the target count is `y.shape[1]` or 1. The guard accepts iff the feature count is a power of two and there is one target. Otherwise the error names both counts. A 0-d `X` raises an index error |
| `LinearRegressionFit.ThreeFeaturesRefused` | src/concrete/ml/sklearn/linear_model.py:85-90 | a 4 x 3 table with a 1-D target is refused, naming 3 features and 1 target |
| `LinearRegressionFit.PowerOfTwoColumnsAccepted` | src/concrete/ml/sklearn/linear_model.py:82-90 | any 2-D table with 2^k columns and a 1-D target is accepted with feature count 2^k |
| `LinearRegressionFit.Decimal` | src/concrete/ml/sklearn/linear_model.py:88 | the f-string rendering of a count is a non-empty string of decimal digits with no leading zero (it starts with '0' only for 0) |
| `LinearRegressionFit.DecimalRoundTrip` | src/concrete/ml/sklearn/linear_model.py:88 | a count rendered into the message reads back as the same number |
| `LinearRegressionFit.CountsMessage` | src/concrete/ml/sklearn/linear_model.py:87-89 | the message is the fixed explanation, then the feature count's digits, " features and ", the target count's digits and the closing text, each at a known position (so each count reads back with `DecimalRoundTrip`) |
| `LinearRegressionFit.GuardMessageRunsWordsTogether` | src/concrete/ml/sklearn/linear_model.py:87-89 | in the message as written, the ")" of "target(s)" is directly followed by the "w" of "were". The message is one character shorter than the intended one and differs from it for every pair of counts |
| `LinearRegressionFit.FitError.Message` | src/concrete/ml/sklearn/linear_model.py:85-90 | the error text of a refused guard is the message as the source writes it. It starts with the fixed explanation, then the feature count's digits, " features and " and the target count's digits, and ends in the run-together " target(s)were given.". It is one character shorter than the intended message |
| `LinearRegressionFit.GuardMessage` | src/concrete/ml/sklearn/linear_model.py:87-89 | the intended message, built the same way, ends in " target(s) were given." with the space restored |
| `LinearRegressionFit.FirstRow` | src/concrete/ml/sklearn/linear_model.py:118 | `X[:1]` keeps the trailing axes, has at most one entry on the first axis (exactly one when `X` has rows) and its data is a prefix of `X`'s data. For a well-formed `X` that prefix is exactly one row's worth of elements, or none when `X` has no rows |
| `LinearRegressionFit.NdArray.DeepCopy` | src/concrete/ml/sklearn/linear_model.py:92-93 | `copy.deepcopy(X)` is a fresh object with fresh storage and the same shape and contents |
| `LinearRegressionFit.LinearRegression.constructor` | src/concrete/ml/sklearn/linear_model.py:37-57 | stores each hyperparameter as given, with the source's defaults, and starts with no ONNX model and no artifacts |
| `Params.Pop` | src/concrete/ml/sklearn/linear_model.py:100-101 | `dict.pop(key, None)` removes exactly `key`, keeps every other entry, and for an absent key leaves the dictionary as it is and returns the default without error |
| `Params.StripQuantizationParams` | src/concrete/ml/sklearn/linear_model.py:99-102 | the trainer's parameters are `get_params()` with exactly `n_bits` and `use_sum_workaround` removed; every other key keeps its value |
| `LinearRegressionFit.TrainerParamsAreSklearnParams` | src/concrete/ml/sklearn/linear_model.py:99-102 | `get_params()` names exactly the seven constructor parameters, and the float trainer receives exactly the five scikit-learn `LinearRegression` arguments and no quantization key |
| `LinearRegressionFit.LinearRegression.TrainAndQuantize` | src/concrete/ml/sklearn/linear_model.py:98-129 | `sklearn_model` is built on the stripped parameters and trained on the validated data. `_onnx_model_` is the ReduceSum graph of its coefficients with `X[:1]` as dummy input. `quantized_module_` quantizes that graph signed with `n_bits`, calibrated on `X` |
| `LinearRegressionFit.LinearRegression.Fit` | src/concrete/ml/sklearn/linear_model.py:60-131 | without the workaround it makes no field updates of its own: no guard and no copy. The parent's `fit`, which is not modelled, does the work there. A refused guard or failed validation raises and changes nothing. Otherwise it records the three artifacts above. The hyperparameters never change and the caller's `X` is never written |
| `LogisticPostProcessing.Complement` | src/concrete/ml/sklearn/linear_model.py:309-311 | a one-column row `p` becomes a two-entry row whose second entry is `p` unchanged and whose entries sum to 1 |
| `LogisticPostProcessing.Softmax` | src/concrete/ml/sklearn/linear_model.py:312-314 | the multi-class row has one entry per score. Every entry is positive and a non-empty row sums to 1. Each entry times the row's total of exponentials is that score's exponential |
| `LogisticPostProcessing.SoftmaxEqualScores` | src/concrete/ml/sklearn/linear_model.py:312-314 | equal scores in a row get equal probabilities |
| `LogisticPostProcessing.SoftmaxUnique` | src/concrete/ml/sklearn/linear_model.py:312-314 | any vector proportional to the exponentials that sums to 1 is the softmax row, so the row is `exp(s_j) / sum_m exp(s_m)` |
| `LogisticPostProcessing.Normalize` | src/concrete/ml/sklearn/linear_model.py:309-314 | an n x 1 table becomes n x 2 with rows `(1 - p, p)`. Any other width k stays n x k with softmax rows. Every row of a table with at least one column sums to 1 |
| `LogisticPostProcessing.PostProcessing` | src/concrete/ml/sklearn/linear_model.py:304-315 | the table it normalises is the input when `already_dequantized` is true, else the parent's dequantization of it. The result has one row per row of that table and width 2 for one column, otherwise the same width. Every row sums to 1 when the table has a column. One-column rows become `(1 - p, p)` and wider rows are their softmax |
| `LogisticPostProcessing.PredictProba` | src/concrete/ml/sklearn/linear_model.py:330-344 | `predict_proba` passes `already_dequantized = True`, so its result is the normalised decision scores whatever the parent's dequantization does |
| `LogisticPostProcessing.ArgMax` | src/concrete/ml/sklearn/linear_model.py:349 | `argmax` of a non-empty row is the first index of a maximal entry: its value is at least every entry and strictly above every earlier one |
| `LogisticPostProcessing.Predict` | src/concrete/ml/sklearn/linear_model.py:346-350 | one label per row, each in `[0, width)` and the first maximal probability of its row. numpy's argmax fails exactly when the scores have no column |
| `LogisticPostProcessing.BinaryLabel` | src/concrete/ml/sklearn/linear_model.py:346-350 | with one score column the label is 1 exactly when `p > 0.5`; a tie at 0.5 gives class 0 |
| `LogisticPostProcessing.MultiClassLabelIsScoreArgmax` | src/concrete/ml/sklearn/linear_model.py:346-350 | for an increasing `exp`, the multi-class label is also the first maximal raw score |
| `LogisticPostProcessing.BinaryTieGoesToClassZero` | src/concrete/ml/sklearn/linear_model.py:341-350 | the score 0.5 gives probabilities (0.5, 0.5) and label 0 |
| `LogisticPostProcessing.ThreeEqualScores` | src/concrete/ml/sklearn/linear_model.py:341-350 | three equal scores give 1/3 each and label 0 |

## Left out
- `use_case_examples/mnist/mnist_in_fhe.py` is not part of this model. It is a training script: dataset download, torch loops, FHE compilation and execution, printing.
- `super().fit` (the standard path) and `SklearnLinearModelMixin` are not part of this model. `Fit` only reports `Delegated` for them. `super().__init__(n_bits=...)` is not modelled either.
- LinearRegression.Fit: the state changes on the delegated path are not represented. When `use_sum_workaround` is falsy, the parent's `fit` trains the estimator and stores its artifacts. The model's `Fit` only promises that it makes no field update of its own there, so `unchanged(this)` on that path is a fact about this model, not about the program.
- `check_X_y_and_assert` and the scikit-learn trainer are external. They are function parameters of `Fit`. The validator is assumed to return a feature array with at least one axis, as scikit-learn's does.
- `*args` and `**kwargs` forwarded to the scikit-learn `fit` are not modelled.
- Exceptions inside training, export or quantization are not modelled.
- The torch conversions, `_LinearRegressionTorchModel`, the ONNX export and `PostTrainingAffineQuantization` are recorded only as datatype values of their inputs (`ReduceSumGraph`, `QuantizedModule`). Their internals, including the tree-shaped reduction, are not modelled.
- `get_params()` is modelled as the seven constructor parameter names with their stored values, which is what scikit-learn's introspection gives. Nested (`deep`) parameters do not occur for these values.
- The `__init__` constructors of `ElasticNet`, `Lasso`, `Ridge` and `LogisticRegression` only store hyperparameters. They are not modelled.
- `LogisticRegression.clean_graph` rewrites the ONNX graph in another module and is not modelled.
- `decision_function` runs the parent's `predict` and the FHE runtime. It is not modelled: the decision scores are the input of `PredictProba` and `Predict`.
- `super().post_processing` (dequantization) is a function parameter `dequantize`.
- `check_array_and_assert` input coercion is not modelled.
- Floating point is not modelled: scores are reals and `exp` is an arbitrary strictly positive function. Overflow of `exp` without max-subtraction and rounding in the normalisation are out of scope.
- Aliasing through the estimator is not modelled: the recorded artifacts are values, so the deep copy shows up only as a fresh object that the caller's array never shares storage with.

## Findings
| source | as written | input that shows it | evidently intended | confidence | as-written member | corrected member |
|---|---|---|---|---|---|---|
| src/concrete/ml/sklearn/linear_model.py:88-89 | the literals `"... {target_number} target(s)"` and `"were given."` are joined with no space | 3 features and 1 target gives "... 3 features and 1 target(s)were given." | "... 1 target(s) were given." | high (string concatenation is deterministic); not executed | `LinearRegressionFit.GuardMessageRunsWordsTogether` | `LinearRegressionFit.GuardMessage` |
