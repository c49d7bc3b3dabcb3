/** `LogisticRegression` inference: the post-processing that turns the decision
    scores into class probabilities, `predict_proba`, and `predict` as a first-maximum
    argmax per row. Scores are reals and `exp` is any strictly positive function. */
module LogisticPostProcessing {
  import opened Results

  /** A 2-D numpy array: the rows, and `shape[1]` (kept so that a table with no rows
      still has a width). */
  datatype Table = Table(rows: seq<seq<real>>, width: nat)

  /** numpy arrays are rectangular: every row has `width` entries. */
  predicate Rectangular(t: Table) {
    forall i | 0 <= i < |t.rows| :: |t.rows[i]| == t.width
  }

  /** The abstraction of `numpy.exp` this model relies on: it is strictly positive. */
  ghost predicate StrictlyPositive(exp: real -> real) {
    forall x :: exp(x) > 0.0
  }

  /** `numpy.exp` is also strictly increasing (used only for the label lemma). */
  ghost predicate StrictlyIncreasing(exp: real -> real) {
    forall x, y :: x < y ==> exp(x) < exp(y)
  }

  function Sum(s: seq<real>): real {
    if s == [] then 0.0 else s[0] + Sum(s[1..])
  }

  /** Dividing every term by c divides the sum by c. */
  lemma {:induction false} SumDivided(a: seq<real>, b: seq<real>, c: real)
    requires c != 0.0 && |a| == |b|
    requires forall j | 0 <= j < |a| :: a[j] == b[j] / c
    ensures Sum(a) == Sum(b) / c
  {
    if a != [] {
      SumDivided(a[1..], b[1..], c);
    }
  }

  /** Multiplying every term by c multiplies the sum by c. */
  lemma {:induction false} SumScaled(a: seq<real>, b: seq<real>, c: real)
    requires |a| == |b|
    requires forall j | 0 <= j < |a| :: a[j] == c * b[j]
    ensures Sum(a) == c * Sum(b)
  {
    if a != [] {
      SumScaled(a[1..], b[1..], c);
    }
  }

  /** A non-empty sum of positive terms is positive. */
  lemma {:induction false} SumPositive(s: seq<real>)
    requires |s| > 0 && forall j | 0 <= j < |s| :: s[j] > 0.0
    ensures Sum(s) > 0.0
  {
    if |s| > 1 {
      SumPositive(s[1..]);
    }
  }

  /** `numpy.exp` of one row. */
  function Exps(row: seq<real>, exp: real -> real): (e: seq<real>)
    ensures |e| == |row| && forall j | 0 <= j < |e| :: e[j] == exp(row[j])
  {
    seq(|row|, j requires 0 <= j < |row| => exp(row[j]))
  }

  lemma SumPair(a: real, b: real)
    ensures Sum([a, b]) == a + b
  {
    var r := [a, b];
    assert r[1..] == [b] && [b][1..] == [];
    assert Sum([b]) == b + Sum([b][1..]);
    assert Sum(r) == r[0] + Sum(r[1..]);
  }

  lemma ExpsPositive(row: seq<real>, exp: real -> real)
    requires StrictlyPositive(exp)
    ensures forall j | 0 <= j < |row| :: Exps(row, exp)[j] > 0.0
  {
    var e := Exps(row, exp);
    forall j | 0 <= j < |row| ensures e[j] > 0.0 {
      var x := row[j];
      assert e[j] == exp(x) > 0.0;
    }
  }

  /** Binary branch, one row: the sigmoid output `p` already computed in the graph
      becomes `(1 - p, p)`. */
  function Complement(row: seq<real>): (r: seq<real>)
    requires |row| == 1
    ensures |r| == 2 && r[1] == row[0] && Sum(r) == 1.0
  {
    SumPair(1.0 - row[0], row[0]);
    [1.0 - row[0], row[0]]
  }

  /** Dividing every term of a positive vector by a positive total. */
  lemma DividedFacts(e: seq<real>, t: real, r: seq<real>)
    requires t > 0.0 && |r| == |e|
    requires forall j | 0 <= j < |e| :: e[j] > 0.0 && r[j] == e[j] / t
    ensures forall j | 0 <= j < |r| :: r[j] > 0.0 && r[j] * t == e[j]
    ensures Sum(r) == Sum(e) / t
  {
    forall j | 0 <= j < |r| ensures r[j] > 0.0 && r[j] * t == e[j] {
      QuotientFacts(e[j], t);
    }
    SumDivided(r, e, t);
  }

  lemma QuotientFacts(x: real, t: real)
    requires t > 0.0 && x > 0.0
    ensures x / t > 0.0 && (x / t) * t == x
  {
  }

  lemma SelfQuotient(t: real)
    requires t > 0.0
    ensures t / t == 1.0
  {
  }

  /** Multi-class branch, one row: `exp` of every score divided by the row's total of
      exponentials (no max-subtraction). The result is positive, sums to one when the
      row is not empty, and each entry times the total is that entry's exponential. */
  function Softmax(row: seq<real>, exp: real -> real): (r: seq<real>)
    requires StrictlyPositive(exp)
    ensures |r| == |row|
    ensures forall j | 0 <= j < |r| :: r[j] > 0.0
    ensures |row| > 0 ==> Sum(r) == 1.0
    ensures forall j | 0 <= j < |r| :: r[j] * Sum(Exps(row, exp)) == exp(row[j])
  {
    var e := Exps(row, exp);
    if e == [] then []
    else
      ExpsPositive(row, exp);
      SumPositive(e);
      var total := Sum(e);
      var r := seq(|e|, j requires 0 <= j < |e| => e[j] / total);
      DividedFacts(e, total, r);
      SelfQuotient(total);
      r
  }

  /** The total of the exponentials of a non-empty row is positive. */
  lemma ExpTotalPositive(row: seq<real>, exp: real -> real)
    requires StrictlyPositive(exp) && |row| > 0
    ensures Sum(Exps(row, exp)) > 0.0
  {
    ExpsPositive(row, exp);
    SumPositive(Exps(row, exp));
  }

  /** Equal scores get equal probabilities. */
  lemma SoftmaxEqualScores(row: seq<real>, exp: real -> real, i: nat, j: nat)
    requires StrictlyPositive(exp) && i < |row| && j < |row| && row[i] == row[j]
    ensures Softmax(row, exp)[i] == Softmax(row, exp)[j]
  {
    var p := Softmax(row, exp);
    var t := Sum(Exps(row, exp));
    ExpTotalPositive(row, exp);
    var x := row[i];
    assert p[i] * t == exp(x) && p[j] * t == exp(x);
    Cancel(p[i], p[j], t);
  }

  /** Softmax is the only normalisation of the row proportional to `exp`: any vector
      that is a positive multiple of the exponentials and sums to one is it. */
  lemma SoftmaxUnique(row: seq<real>, exp: real -> real, q: seq<real>, c: real)
    requires StrictlyPositive(exp)
    requires |q| == |row| && Sum(q) == 1.0
    requires forall j | 0 <= j < |q| :: q[j] == c * exp(row[j])
    ensures q == Softmax(row, exp)
  {
    var e := Exps(row, exp);
    assert forall j | 0 <= j < |q| :: q[j] == c * e[j];
    ProportionalTimesTotal(q, e, c);
    SoftmaxFromTotal(row, exp, q);
  }

  /** A vector whose entries times the row's total of exponentials give the
      exponentials is the softmax of the row. */
  lemma SoftmaxFromTotal(row: seq<real>, exp: real -> real, q: seq<real>)
    requires StrictlyPositive(exp)
    requires |q| == |row|
    requires forall j | 0 <= j < |q| :: q[j] * Sum(Exps(row, exp)) == Exps(row, exp)[j]
    ensures q == Softmax(row, exp)
  {
    if |row| > 0 {
      ExpTotalPositive(row, exp);
    }
    SoftmaxTimesTotal(row, exp);
    CancelAll(q, Softmax(row, exp), Exps(row, exp), Sum(Exps(row, exp)));
  }

  /** Each softmax entry times the total of the exponentials is the entry's
      exponential, stated on the vector of exponentials. */
  lemma SoftmaxTimesTotal(row: seq<real>, exp: real -> real)
    requires StrictlyPositive(exp)
    ensures forall j | 0 <= j < |row| :: Softmax(row, exp)[j] * Sum(Exps(row, exp)) == Exps(row, exp)[j]
  {
    var r := Softmax(row, exp);
    var e := Exps(row, exp);
    forall j | 0 <= j < |row| ensures r[j] * Sum(e) == e[j] {
      var x := row[j];
      assert r[j] * Sum(e) == exp(x);
    }
  }

  /** A positive multiple of e that sums to one, times the total of e, gives back e. */
  lemma ProportionalTimesTotal(q: seq<real>, e: seq<real>, c: real)
    requires |q| == |e| && Sum(q) == 1.0
    requires forall j | 0 <= j < |q| :: q[j] == c * e[j]
    ensures forall j | 0 <= j < |q| :: q[j] * Sum(e) == e[j]
  {
    SumScaled(q, e, c);
    var t := Sum(e);
    assert c * t == 1.0;
    forall j | 0 <= j < |q| ensures q[j] * t == e[j] {
      RescaledEntry(q[j], e[j], c, t);
    }
  }

  /** If q = c * x and c * t = 1, then q * t = x. */
  lemma RescaledEntry(q: real, x: real, c: real, t: real)
    requires q == c * x && c * t == 1.0
    ensures q * t == x
  {
    calc {
      q * t;
      (c * x) * t;
      x * (c * t);
      x;
    }
  }

  /** Two vectors that both give e when multiplied by a non-zero t are equal. */
  lemma CancelAll(q: seq<real>, r: seq<real>, e: seq<real>, t: real)
    requires |q| == |r| == |e| && (|e| > 0 ==> t != 0.0)
    requires forall j | 0 <= j < |q| :: q[j] * t == e[j]
    requires forall j | 0 <= j < |r| :: r[j] * t == e[j]
    ensures q == r
  {
    forall j | 0 <= j < |q| ensures q[j] == r[j] {
      Cancel(q[j], r[j], t);
    }
  }

  lemma Cancel(a: real, b: real, t: real)
    requires a * t == b * t && t != 0.0
    ensures a == b
  {
  }

  /** The width of the probability table for a score table of width `w`. */
  function ProbaWidth(w: nat): nat {
    if w == 1 then 2 else w
  }

  /** The shape test and the two normalisation rules, applied to already
      dequantized scores: a one-column table becomes `(1 - p, p)` row by row, any
      other table is normalised row by row with `exp`. */
  function Normalize(s: Table, exp: real -> real): (r: Table)
    requires StrictlyPositive(exp) && Rectangular(s)
    ensures Rectangular(r) && |r.rows| == |s.rows| && r.width == ProbaWidth(s.width)
    ensures s.width >= 1 ==> forall i | 0 <= i < |r.rows| :: Sum(r.rows[i]) == 1.0
    ensures s.width == 1 ==> forall i | 0 <= i < |r.rows| ::
      r.rows[i][1] == s.rows[i][0] && r.rows[i][0] == 1.0 - s.rows[i][0]
    ensures s.width != 1 ==> forall i | 0 <= i < |r.rows| :: r.rows[i] == Softmax(s.rows[i], exp)
  {
    if s.width == 1 then
      Table(seq(|s.rows|, i requires 0 <= i < |s.rows| => Complement(s.rows[i])), 2)
    else
      Table(seq(|s.rows|, i requires 0 <= i < |s.rows| => Softmax(s.rows[i], exp)), s.width)
  }

  /** `post_processing(y_preds, already_dequantized)`: the parent's dequantization is
      applied exactly when the scores are not already dequantized, then the scores are
      normalised. */
  function PostProcessing(yPreds: Table, alreadyDequantized: bool, dequantize: Table -> Table, exp: real -> real): (r: Table)
    requires StrictlyPositive(exp)
    requires Rectangular(if alreadyDequantized then yPreds else dequantize(yPreds))
    ensures var s := if alreadyDequantized then yPreds else dequantize(yPreds);
      && Rectangular(r) && |r.rows| == |s.rows| && r.width == ProbaWidth(s.width)
      && (s.width >= 1 ==> forall i | 0 <= i < |r.rows| :: Sum(r.rows[i]) == 1.0)
      && (s.width == 1 ==> forall i | 0 <= i < |r.rows| ::
            r.rows[i][1] == s.rows[i][0] && r.rows[i][0] == 1.0 - s.rows[i][0])
      && (s.width != 1 ==> forall i | 0 <= i < |r.rows| :: r.rows[i] == Softmax(s.rows[i], exp))
  {
    var scores := if alreadyDequantized then yPreds else dequantize(yPreds);
    Normalize(scores, exp)
  }

  /** `predict_proba`: the decision scores go through `post_processing` with
      `already_dequantized = True`, so the parent's dequantization never runs: the
      probabilities are the normalised decision scores, whatever it would do. */
  function PredictProba(scores: Table, dequantize: Table -> Table, exp: real -> real): (r: Table)
    requires StrictlyPositive(exp) && Rectangular(scores)
    ensures r == Normalize(scores, exp)
  {
    PostProcessing(scores, true, dequantize, exp)
  }

  /** k is the first index of a maximal entry of the row. */
  predicate IsFirstMax(row: seq<real>, k: nat) {
    && k < |row|
    && (forall j | 0 <= j < |row| :: row[j] <= row[k])
    && (forall j | 0 <= j < k :: row[j] < row[k])
  }

  /** `numpy.argmax` of a non-empty row: the first maximal index. */
  function ArgMax(row: seq<real>): (k: nat)
    requires |row| > 0
    ensures IsFirstMax(row, k)
  {
    if |row| == 1 then 0
    else
      var k := ArgMax(row[..|row| - 1]);
      if row[|row| - 1] > row[k] then |row| - 1 else k
  }

  /** Why `predict` raised. */
  datatype PredictError = EmptyArgmax  // `numpy.argmax` along an axis of length 0

  /** `predict`: one label per row, the first maximal index of its probabilities.
      numpy refuses an argmax along a zero-length axis, which happens exactly when the
      decision scores have no column. */
  function Predict(scores: Table, dequantize: Table -> Table, exp: real -> real): (r: Result<seq<nat>, PredictError>)
    requires StrictlyPositive(exp) && Rectangular(scores)
    ensures r.Ok? <==> scores.width != 0
    ensures r.Ok? ==>
      var proba := PredictProba(scores, dequantize, exp);
      && |r.value| == |scores.rows|
      && forall i | 0 <= i < |r.value| :: r.value[i] < proba.width && IsFirstMax(proba.rows[i], r.value[i])
  {
    var proba := PredictProba(scores, dequantize, exp);
    if proba.width == 0 then Err(EmptyArgmax)
    else Ok(seq(|proba.rows|, i requires 0 <= i < |proba.rows| => ArgMax(proba.rows[i])))
  }

  /** Binary labels: class 1 exactly when the sigmoid output exceeds one half, so a
      probability of exactly one half goes to class 0. */
  lemma BinaryLabel(scores: Table, dequantize: Table -> Table, exp: real -> real, i: nat)
    requires StrictlyPositive(exp) && Rectangular(scores) && scores.width == 1 && i < |scores.rows|
    ensures Predict(scores, dequantize, exp).Ok?
    ensures Predict(scores, dequantize, exp).value[i] == if scores.rows[i][0] > 0.5 then 1 else 0
  {
  }

  /** For an increasing `exp`, the first maximal probability of a softmax row sits at
      the first maximal score. */
  lemma SoftmaxKeepsFirstMax(row: seq<real>, exp: real -> real, k: nat)
    requires StrictlyPositive(exp) && StrictlyIncreasing(exp) && |row| > 0
    requires IsFirstMax(Softmax(row, exp), k)
    ensures IsFirstMax(row, k)
  {
    ExpTotalPositive(row, exp);
    FirstMaxReflected(Softmax(row, exp), row, exp, Sum(Exps(row, exp)), k);
  }

  /** If every entry of p times a positive t is `exp` of the matching score, the
      first maximal entry of p is the first maximal score. */
  lemma FirstMaxReflected(p: seq<real>, row: seq<real>, exp: real -> real, t: real, k: nat)
    requires StrictlyIncreasing(exp) && t > 0.0 && |p| == |row|
    requires forall j | 0 <= j < |p| :: p[j] * t == exp(row[j])
    requires IsFirstMax(p, k)
    ensures IsFirstMax(row, k)
  {
    forall j | 0 <= j < |row| ensures row[j] <= row[k] && (j < k ==> row[j] < row[k]) {
      var x, y := row[j], row[k];
      assert p[j] * t == exp(x) && p[k] * t == exp(y);
      ScaledOrder(p[j], p[k], t);
      IncreasingReflects(exp, x, y);
      if j < k {
        ScaledStrictOrder(p[j], p[k], t);
        IncreasingReflectsStrict(exp, x, y);
      }
    }
  }

  lemma ScaledOrder(a: real, b: real, t: real)
    requires t > 0.0 && a <= b
    ensures a * t <= b * t
  {
  }

  lemma ScaledStrictOrder(a: real, b: real, t: real)
    requires t > 0.0 && a < b
    ensures a * t < b * t
  {
  }

  /** An increasing function reflects order. */
  lemma IncreasingReflects(exp: real -> real, x: real, y: real)
    requires StrictlyIncreasing(exp) && exp(x) <= exp(y)
    ensures x <= y
  {
  }

  lemma IncreasingReflectsStrict(exp: real -> real, x: real, y: real)
    requires StrictlyIncreasing(exp) && exp(x) < exp(y)
    ensures x < y
  {
  }

  /** Multi-class labels: since `exp` is increasing and the normalisation divides by a
      positive total, the label is also the first maximal raw score. */
  lemma MultiClassLabelIsScoreArgmax(scores: Table, dequantize: Table -> Table, exp: real -> real, i: nat)
    requires StrictlyPositive(exp) && StrictlyIncreasing(exp) && Rectangular(scores)
    requires scores.width >= 2 && i < |scores.rows|
    ensures Predict(scores, dequantize, exp).Ok?
    ensures IsFirstMax(scores.rows[i], Predict(scores, dequantize, exp).value[i])
  {
    var proba := PredictProba(scores, dequantize, exp);
    var k := Predict(scores, dequantize, exp).value[i];
    SoftmaxKeepsFirstMax(scores.rows[i], exp, k);
  }

  /** A binary score of one half gives probabilities (0.5, 0.5) and label 0. */
  lemma BinaryTieGoesToClassZero(dequantize: Table -> Table, exp: real -> real)
    requires StrictlyPositive(exp)
    ensures PredictProba(Table([[0.5]], 1), dequantize, exp).rows == [[0.5, 0.5]]
    ensures Predict(Table([[0.5]], 1), dequantize, exp) == Ok([0])
  {
    var scores := Table([[0.5]], 1);
    BinaryLabel(scores, dequantize, exp, 0);
    var labels := Predict(scores, dequantize, exp).value;
    assert |labels| == 1 && labels[0] == 0;
    assert labels == [0];
  }

  lemma SumTriple(a: real, b: real, c: real)
    ensures Sum([a, b, c]) == a + b + c
  {
    var r := [a, b, c];
    assert r[1..] == [b, c];
    SumPair(b, c);
  }

  /** Three equal scores give one third each and label 0. */
  lemma ThreeEqualScores(dequantize: Table -> Table, exp: real -> real)
    requires StrictlyPositive(exp)
    ensures PredictProba(Table([[1.0, 1.0, 1.0]], 3), dequantize, exp).rows == [[1.0 / 3.0, 1.0 / 3.0, 1.0 / 3.0]]
    ensures Predict(Table([[1.0, 1.0, 1.0]], 3), dequantize, exp) == Ok([0])
  {
    var row := [1.0, 1.0, 1.0];
    var scores := Table([row], 3);
    var p := Softmax(row, exp);
    SoftmaxEqualScores(row, exp, 0, 1);
    SoftmaxEqualScores(row, exp, 1, 2);
    SumTriple(p[0], p[1], p[2]);
    assert p == [p[0], p[1], p[2]];
    assert p == [1.0 / 3.0, 1.0 / 3.0, 1.0 / 3.0];
    var proba := PredictProba(scores, dequantize, exp);
    assert proba.rows == [p];
    var labels := Predict(scores, dequantize, exp).value;
    assert |labels| == 1 && IsFirstMax(p, labels[0]);
    assert labels[0] == 0;
    assert labels == [0];
  }
}
