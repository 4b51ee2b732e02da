/** The per-epoch bookkeeping of the `Precision` trace: it decodes each batch's
    ground truth and prediction scores into class labels, accumulates them over
    the epoch, and at epoch end scores them with the binary or the per-class
    average. The scorer itself is a parameter. */
module PrecisionTrace {
  import opened Outcomes

  /** An array as the trace sees it after conversion to NumPy: its shape and
      its elements in row-major order (the order `ravel` gives). */
  datatype Tensor = Tensor(shape: seq<nat>, values: seq<real>)

  /** Number of elements of an array of the given shape. */
  function Size(shape: seq<nat>): nat {
    if shape == [] then 1 else shape[0] * Size(shape[1..])
  }

  type NdArray = t: Tensor | |t.values| == Size(t.shape) witness Tensor([], [0.0])

  /** The averaging passed to the scorer: 'binary', or None (one score per class). */
  datatype Average = Binary | PerClass

  datatype BatchError =
    | MissingKey(key: string)  // the batch holds no value under a key the trace reads
    | ScalarInput              // a rank-0 array: it has no last dimension to inspect
    | EmptyClassAxis           // argmax over a last dimension of length 0
    | SizeMismatch             // predicted and true labels differ in number

  /** The labels of one batch and whether the classification looks binary. */
  datatype Decoded = Decoded(truth: seq<real>, pred: seq<real>, binary: bool)

  const DefaultMode: set<string> := {"eval", "test"}
  const DefaultOutputName: string := "precision"

  function LastDim(t: NdArray): nat
    requires t.shape != []
  {
    t.shape[|t.shape| - 1]
  }

  lemma MulAssoc(a: nat, b: nat, c: nat)
    ensures a * (b * c) == (a * b) * c
  {
  }

  /** Splitting off the last dimension: elements = rows * last dimension. */
  lemma {:induction false} SizeSplitsLast(shape: seq<nat>)
    requires shape != []
    ensures Size(shape) == Size(shape[..|shape| - 1]) * shape[|shape| - 1]
    decreases |shape|
  {
    var n := |shape|;
    if n > 1 {
      var init := shape[..n - 1];
      SizeSplitsLast(shape[1..]);
      assert shape[1..][..n - 2] == init[1..];
      assert Size(init) == shape[0] * Size(init[1..]);
      MulAssoc(shape[0], Size(init[1..]), shape[n - 1]);
    }
  }

  /** Index of the first largest element, as np.argmax returns it. */
  function ArgMax(row: seq<real>): (i: nat)
    requires row != []
    ensures i < |row|
    ensures forall j :: 0 <= j < |row| ==> row[j] <= row[i]
    ensures forall j :: 0 <= j < i ==> row[j] < row[i]
  {
    if |row| == 1 then 0
    else
      var k := ArgMax(row[..|row| - 1]);
      if row[|row| - 1] > row[k] then |row| - 1 else k
  }

  /** A row index and a width fix a slice inside `rows` rows of that width. */
  lemma RowOffsets(i: nat, w: nat, rows: nat)
    requires i < rows
    ensures i * w + w <= rows * w
  {
    assert i * w + w == (i + 1) * w;
    assert (i + 1) * w <= rows * w;
  }

  /** Row i of `rows` consecutive rows of width `w`. */
  function Row(values: seq<real>, w: nat, rows: nat, i: nat): (row: seq<real>)
    requires w > 0 && |values| == rows * w && i < rows
    ensures |row| == w
  {
    RowOffsets(i, w, rows);
    values[i * w .. i * w + w]
  }

  /** np.argmax over the last axis, flattened: label i is the position of
      the first maximum of row i. */
  function RowArgMax(values: seq<real>, w: nat, rows: nat): (labels: seq<real>)
    requires w > 0 && |values| == rows * w
    ensures |labels| == rows
    ensures forall i :: 0 <= i < rows ==> 0.0 <= labels[i] < w as real
  {
    seq(rows, i requires 0 <= i < rows => ArgMax(Row(values, w, rows, i)) as real)
  }

  /** np.round: to the nearest integer, halves to the even neighbour. */
  function RoundHalfEven(x: real): (r: int)
    ensures x - 0.5 <= r as real <= x + 0.5
    ensures (r as real == x - 0.5 || r as real == x + 0.5) ==> r % 2 == 0
  {
    var f := x.Floor;
    var d := x - f as real;
    if d < 0.5 then f
    else if d > 0.5 then f + 1
    else if f % 2 == 0 then f else f + 1
  }

  /** Element-wise rounding, in order. */
  function RoundAll(values: seq<real>): (r: seq<real>)
    ensures |r| == |values|
    ensures forall i :: 0 <= i < |values| ==> r[i] == RoundHalfEven(values[i]) as real
  {
    if values == [] then [] else [RoundHalfEven(values[0]) as real] + RoundAll(values[1..])
  }

  /** Class `k` one-hot encoded over `w` classes. */
  function OneHotRow(k: nat, w: nat): (row: seq<real>)
    ensures |row| == w
  {
    seq(w, j => if j == k then 1.0 else 0.0)
  }

  lemma NextRow(n: nat, w: nat)
    requires n > 0
    ensures w + (n - 1) * w == n * w
  {
  }

  /** Labels one-hot encoded, row after row. */
  function OneHot(classes: seq<nat>, w: nat): (values: seq<real>)
    ensures |values| == |classes| * w
  {
    if classes == [] then []
    else
      NextRow(|classes|, w);
      OneHotRow(classes[0], w) + OneHot(classes[1..], w)
  }

  /** The argmax of a one-hot row is its class. */
  lemma OneHotRowDecodes(k: nat, w: nat)
    requires k < w
    ensures ArgMax(OneHotRow(k, w)) == k
  {
    var row := OneHotRow(k, w);
    assert row[k] == 1.0;
  }

  lemma {:induction false} OneHotRowAt(classes: seq<nat>, w: nat, i: nat)
    requires w > 0 && i < |classes|
    ensures Row(OneHot(classes, w), w, |classes|, i) == OneHotRow(classes[i], w)
    decreases i
  {
    var values := OneHot(classes, w);
    var head := OneHotRow(classes[0], w);
    var rest := OneHot(classes[1..], w);
    assert values == head + rest;
    if i > 0 {
      OneHotRowAt(classes[1..], w, i - 1);
      RowOffsets(i - 1, w, |classes| - 1);
      var lo := (i - 1) * w;
      assert w + lo == i * w by { NextRow(i, w); }
      assert Row(values, w, |classes|, i) == values[w + lo .. w + lo + w];
      assert values[w + lo .. w + lo + w] == rest[lo .. lo + w];
      assert Row(rest, w, |classes| - 1, i - 1) == rest[lo .. lo + w];
    } else {
      assert Row(values, w, |classes|, 0) == values[0 .. w];
    }
  }

  /** Decoding one-hot ground truth with argmax recovers the classes. */
  lemma OneHotRoundTrip(classes: seq<nat>, w: nat)
    requires w > 0 && forall i :: 0 <= i < |classes| ==> classes[i] < w
    ensures RowArgMax(OneHot(classes, w), w, |classes|) == seq(|classes|, i requires 0 <= i < |classes| => classes[i] as real)
  {
    forall i | 0 <= i < |classes|
      ensures RowArgMax(OneHot(classes, w), w, |classes|)[i] == classes[i] as real
    {
      OneHotRowAt(classes, w, i);
      OneHotRowDecodes(classes[i], w);
    }
  }

  /** A whole number rounds to itself. */
  lemma RoundWhole(n: int)
    ensures RoundHalfEven(n as real) == n
  {
    assert (n as real).Floor == n;
  }

  /** A probability in [0, 1] rounds to 1 when above one half and to 0
      otherwise (one half itself goes to the even neighbour, 0). */
  lemma RoundProbability(x: real)
    requires 0.0 <= x <= 1.0
    ensures RoundHalfEven(x) == if x > 0.5 then 1 else 0
  {
    if x == 1.0 {
      assert x.Floor == 1;
    } else {
      assert x.Floor == 0;
    }
  }

  /** Ground truth: argmax-decoded when it has rank > 1 and a last dimension
      > 1 (one-hot or scores), used as it is otherwise; a rank-0 array has no
      last dimension and is rejected. */
  function TruthLabels(t: NdArray): (r: Result<seq<real>, BatchError>)
    ensures r.Err? <==> t.shape == []
    ensures r.Err? ==> r.error == ScalarInput
    ensures r.Ok? && |t.shape| > 1 && LastDim(t) > 1 ==>
      |r.value| * LastDim(t) == |t.values| &&
      forall i :: 0 <= i < |r.value| ==> 0.0 <= r.value[i] < LastDim(t) as real
    ensures r.Ok? && |t.shape| > 1 && LastDim(t) > 1 ==>
      |t.values| == Size(t.shape[..|t.shape| - 1]) * LastDim(t) &&
      r.value == RowArgMax(t.values, LastDim(t), Size(t.shape[..|t.shape| - 1]))
    ensures r.Ok? && !(|t.shape| > 1 && LastDim(t) > 1) ==> r.value == t.values
  {
    if t.shape == [] then Err(ScalarInput)
    else if LastDim(t) > 1 && |t.shape| > 1 then
      SizeSplitsLast(t.shape);
      Ok(RowArgMax(t.values, LastDim(t), Size(t.shape[..|t.shape| - 1])))
    else Ok(t.values)
  }

  /** Prediction scores: rounded when the last dimension is 1, argmax-decoded
      over the last dimension otherwise. */
  function PredictionLabels(t: NdArray): (r: Result<seq<real>, BatchError>)
    ensures t.shape == [] ==> r == Err(ScalarInput)
    ensures t.shape != [] && LastDim(t) == 0 ==> r == Err(EmptyClassAxis)
    ensures t.shape != [] && LastDim(t) == 1 ==> r.Ok? && r.value == RoundAll(t.values)
    ensures t.shape != [] && LastDim(t) > 1 ==>
      r.Ok? && |r.value| * LastDim(t) == |t.values| &&
      forall i :: 0 <= i < |r.value| ==> 0.0 <= r.value[i] < LastDim(t) as real
    ensures t.shape != [] && LastDim(t) > 1 ==>
      |t.values| == Size(t.shape[..|t.shape| - 1]) * LastDim(t) &&
      r.value == RowArgMax(t.values, LastDim(t), Size(t.shape[..|t.shape| - 1]))
  {
    if t.shape == [] then Err(ScalarInput)
    else if LastDim(t) == 1 then Ok(RoundAll(t.values))
    else if LastDim(t) == 0 then Err(EmptyClassAxis)
    else
      SizeSplitsLast(t.shape);
      Ok(RowArgMax(t.values, LastDim(t), Size(t.shape[..|t.shape| - 1])))
  }

  /** One batch: both label lists, in the order the arrays are read, or the
      first error met; the classification counts as binary when the prediction width is
      1 or 2. */
  function DecodeBatch(data: map<string, NdArray>, trueKey: string, predKey: string): (r: Result<Decoded, BatchError>)
    ensures trueKey !in data ==> r == Err(MissingKey(trueKey))
    ensures r.Ok? ==>
      && trueKey in data && predKey in data
      && TruthLabels(data[trueKey]) == Ok(r.value.truth)
      && PredictionLabels(data[predKey]) == Ok(r.value.pred)
      && |r.value.truth| == |r.value.pred|
      && (r.value.binary <==> LastDim(data[predKey]) == 1 || LastDim(data[predKey]) == 2)
    ensures trueKey in data && predKey in data && TruthLabels(data[trueKey]).Ok? && PredictionLabels(data[predKey]).Ok? ==>
      (r.Ok? <==> |TruthLabels(data[trueKey]).value| == |PredictionLabels(data[predKey]).value|)
    ensures r == Err(SizeMismatch) ==>
      && trueKey in data && predKey in data
      && TruthLabels(data[trueKey]).Ok? && PredictionLabels(data[predKey]).Ok?
      && |TruthLabels(data[trueKey]).value| != |PredictionLabels(data[predKey]).value|
    ensures trueKey in data && TruthLabels(data[trueKey]).Err? ==>
      r == Err(TruthLabels(data[trueKey]).error)
    ensures trueKey in data && TruthLabels(data[trueKey]).Ok? && predKey !in data ==>
      r == Err(MissingKey(predKey))
    ensures trueKey in data && TruthLabels(data[trueKey]).Ok? && predKey in data && PredictionLabels(data[predKey]).Err? ==>
      r == Err(PredictionLabels(data[predKey]).error)
    ensures (trueKey in data && predKey in data && TruthLabels(data[trueKey]).Ok? && PredictionLabels(data[predKey]).Ok?
             && |TruthLabels(data[trueKey]).value| != |PredictionLabels(data[predKey]).value|) ==>
      r == Err(SizeMismatch)
  {
    if trueKey !in data then Err(MissingKey(trueKey))
    else match TruthLabels(data[trueKey])
      case Err(e) => Err(e)
      case Ok(truth) =>
        if predKey !in data then Err(MissingKey(predKey))
        else
          var scores := data[predKey];
          match PredictionLabels(scores)
          case Err(e) => Err(e)
          case Ok(pred) =>
            if |pred| != |truth| then Err(SizeMismatch)
            else Ok(Decoded(truth, pred, LastDim(scores) == 1 || LastDim(scores) == 2))
  }

  /** The averaging chosen at epoch end: 'binary' exactly when the last batch
      marked the classification binary; before any batch the flag is unset. */
  function AverageFor(flag: Option<bool>): (a: Average)
    ensures a == Binary <==> flag == Some(true)
  {
    if flag == Some(true) then Binary else PerClass
  }

  /** A rows-by-w array with the given elements. */
  function Matrix(rows: nat, w: nat, values: seq<real>): (t: NdArray)
    requires |values| == rows * w
    ensures t.shape == [rows, w] && t.values == values
  {
    assert [rows, w][1..] == [w] && [w][1..] == [];
    assert Size([w]) == w;
    assert Size([rows, w]) == rows * Size([w]);
    Tensor([rows, w], values)
  }

  /** One-hot ground truth of shape (n, w), w > 1, decodes to its classes. */
  lemma OneHotTruthDecodes(classes: seq<nat>, w: nat)
    requires w > 1 && forall i :: 0 <= i < |classes| ==> classes[i] < w
    ensures TruthLabels(Matrix(|classes|, w, OneHot(classes, w)))
      == Ok(seq(|classes|, i requires 0 <= i < |classes| => classes[i] as real))
  {
    var t := Matrix(|classes|, w, OneHot(classes, w));
    assert t.shape[..1] == [|classes|];
    assert Size([|classes|]) == |classes|;
    OneHotRoundTrip(classes, w);
  }

  /** Sigmoid scores of shape (n, 1) become 0/1 labels, 1 exactly above one half. */
  lemma SigmoidLabels(scores: seq<real>)
    requires forall i :: 0 <= i < |scores| ==> 0.0 <= scores[i] <= 1.0
    ensures PredictionLabels(Matrix(|scores|, 1, scores)).Ok?
    ensures var labels := PredictionLabels(Matrix(|scores|, 1, scores)).value;
      |labels| == |scores| &&
      forall i :: 0 <= i < |scores| ==> labels[i] == if scores[i] > 0.5 then 1.0 else 0.0
  {
    forall i | 0 <= i < |scores| {
      RoundProbability(scores[i]);
    }
  }

  /** A sigmoid batch: labels (1, 0) against scores (0.7, 0.2) decode to
      (1, 0) both ways and mark the classification binary. */
  lemma SigmoidBatch()
    ensures DecodeBatch(map["y" := Tensor([2], [1.0, 0.0]), "y_pred" := Matrix(2, 1, [0.7, 0.2])], "y", "y_pred")
      == Ok(Decoded([1.0, 0.0], [1.0, 0.0], true))
  {
    assert Size([2]) == 2;
    SigmoidLabels([0.7, 0.2]);
    var labels := PredictionLabels(Matrix(2, 1, [0.7, 0.2])).value;
    assert labels == [1.0, 0.0];
    assert TruthLabels(Tensor([2], [1.0, 0.0])) == Ok([1.0, 0.0]);
  }

  /** A three-class batch: one-hot truth (2, 0) against softmax scores whose
      maxima sit at 2 and 0; not binary. */
  lemma SoftmaxBatch()
    ensures DecodeBatch(map["y" := Matrix(2, 3, OneHot([2, 0], 3)),
                            "y_pred" := Matrix(2, 3, [0.1, 0.2, 0.7, 0.5, 0.3, 0.2])], "y", "y_pred")
      == Ok(Decoded([2.0, 0.0], [2.0, 0.0], false))
  {
    var classes: seq<nat> := [2, 0];
    OneHotTruthDecodes(classes, 3);
    assert seq(|classes|, i requires 0 <= i < |classes| => classes[i] as real) == [2.0, 0.0];
    var scores := Matrix(2, 3, [0.1, 0.2, 0.7, 0.5, 0.3, 0.2]);
    assert Size(scores.shape[..1]) == 2;
    var labels := RowArgMax(scores.values, 3, 2);
    assert Row(scores.values, 3, 2, 0) == [0.1, 0.2, 0.7];
    assert Row(scores.values, 3, 2, 1) == [0.5, 0.3, 0.2];
    assert labels == [2.0, 0.0];
  }

  /** Three true labels against two predictions: the batch is rejected. */
  lemma MismatchBatch()
    ensures DecodeBatch(map["y" := Tensor([3], [1.0, 0.0, 1.0]), "y_pred" := Matrix(2, 1, [0.7, 0.2])], "y", "y_pred")
      == Err(SizeMismatch)
  {
    assert Size([3]) == 3;
  }

  class Precision {
    const inputs: seq<string>
    const outputs: seq<string>
    const mode: set<string>
    /** Labels accumulated over the current epoch. */
    var yTrue: seq<real>
    var yPred: seq<real>
    /** Whether the last decoded batch looked binary; None before any batch. */
    var binary: Option<bool>

    ghost predicate Valid()
      reads this
    {
      |inputs| == 2 && |outputs| == 1 && |yTrue| == |yPred|
    }

    function TrueKey(): string
      requires |inputs| == 2
    {
      inputs[0]
    }

    function PredKey(): string
      requires |inputs| == 2
    {
      inputs[1]
    }

    /** Reads the two keys in order and writes its score under `outputName`. */
    constructor (trueKey: string, predKey: string, mode: set<string>, outputName: string)
      ensures Valid()
      ensures inputs == [trueKey, predKey] && outputs == [outputName] && this.mode == mode
      ensures TrueKey() == trueKey && PredKey() == predKey
      ensures binary == None && yTrue == [] && yPred == []
    {
      inputs := [trueKey, predKey];
      outputs := [outputName];
      this.mode := mode;
      yTrue, yPred := [], [];
      binary := None;
    }

    /** Starts an epoch with empty label buffers; the binary flag is kept. */
    method OnEpochBegin()
      requires Valid()
      modifies this
      ensures Valid()
      ensures yTrue == [] && yPred == [] && binary == old(binary)
    {
      yTrue := [];
      yPred := [];
    }

    /** Decodes one batch and appends its labels to both buffers, keeping them
        of equal length; a rejected batch changes nothing. */
    method OnBatchEnd(data: map<string, NdArray>) returns (failure: Option<BatchError>)
      requires Valid()
      modifies this
      ensures Valid()
      ensures match DecodeBatch(data, TrueKey(), PredKey())
        case Err(e) =>
          failure == Some(e) && yTrue == old(yTrue) && yPred == old(yPred) && binary == old(binary)
        case Ok(d) =>
          failure == None && yTrue == old(yTrue) + d.truth && yPred == old(yPred) + d.pred
          && binary == Some(d.binary)
    {
      var decoded := DecodeBatch(data, TrueKey(), PredKey());
      match decoded {
        case Err(e) =>
          failure := Some(e);
        case Ok(d) =>
          binary := Some(d.binary);
          yPred := yPred + d.pred;
          yTrue := yTrue + d.truth;
          failure := None;
      }
    }

    /** Scores the epoch's labels with the average the binary flag selects and
        names the key the score is written under. */
    method OnEpochEnd<S(==)>(scorer: (seq<real>, seq<real>, Average) -> S) returns (key: string, score: S)
      requires Valid()
      ensures key == outputs[0]
      ensures score == scorer(yTrue, yPred, AverageFor(binary))
    {
      key := outputs[0];
      score := scorer(yTrue, yPred, AverageFor(binary));
    }
  }

  /** An evaluation epoch with keys `y` and `y_pred` and the default mode
      and output name: a sigmoid batch is kept, a
      mismatched batch is rejected, and the epoch is scored on (1, 0) against
      (1, 0) with the binary average under "precision". */
  method EvalEpoch<S(==)>(scorer: (seq<real>, seq<real>, Average) -> S)
    returns (rejected: Option<BatchError>, key: string, score: S)
    ensures rejected == Some(SizeMismatch)
    ensures key == DefaultOutputName
    ensures score == scorer([1.0, 0.0], [1.0, 0.0], Binary)
  {
    var p := new Precision("y", "y_pred", DefaultMode, DefaultOutputName);
    p.OnEpochBegin();
    SigmoidBatch();
    var kept := p.OnBatchEnd(map["y" := Tensor([2], [1.0, 0.0]), "y_pred" := Matrix(2, 1, [0.7, 0.2])]);
    MismatchBatch();
    rejected := p.OnBatchEnd(map["y" := Tensor([3], [1.0, 0.0, 1.0]), "y_pred" := Matrix(2, 1, [0.7, 0.2])]);
    assert p.yTrue == [1.0, 0.0] && p.yPred == [1.0, 0.0] && p.binary == Some(true);
    key, score := p.OnEpochEnd(scorer);
  }
}
