/** Hyperparameters as a scikit-learn estimator stores them, and the dictionary
    operations `LinearRegression.fit` applies to them. */
module Params {

  /** A hyperparameter value as Python holds it on the estimator. */
  datatype Value = NoneV | BoolV(b: bool) | IntV(i: int) | RealV(r: real) | StrV(s: string)

  /** Python truthiness of a stored value (`if not value: ...`). */
  predicate Truthy(v: Value) {
    match v
    case NoneV => false
    case BoolV(b) => b
    case IntV(i) => i != 0
    case RealV(r) => r != 0.0
    case StrV(s) => s != ""
  }

  /** The two keys that only the quantization layer understands. */
  const QuantizationKeys: set<string> := {"n_bits", "use_sum_workaround"}

  /** Python's `d.pop(key, default)`: the dictionary without `key`, and the value that
      was removed, or `default` when `key` was absent (which is not an error). */
  function Pop(d: map<string, Value>, key: string, default: Value): (r: (map<string, Value>, Value))
    ensures r.0.Keys == d.Keys - {key}
    ensures forall k | k in r.0 :: r.0[k] == d[k]
    ensures key in d ==> r.1 == d[key]
    ensures key !in d ==> r.1 == default && r.0 == d
  {
    (d - {key}, if key in d then d[key] else default)
  }

  /** The parameters handed to the float trainer: `get_params()` after
      `pop("n_bits", None)` and `pop("use_sum_workaround", None)`. Exactly the two
      quantization keys disappear; every other key keeps its value. */
  function StripQuantizationParams(params: map<string, Value>): (r: map<string, Value>)
    ensures r.Keys == params.Keys - QuantizationKeys
    ensures forall k | k in r :: r[k] == params[k]
  {
    var afterNBits := Pop(params, "n_bits", NoneV).0;
    Pop(afterNBits, "use_sum_workaround", NoneV).0
  }
}
