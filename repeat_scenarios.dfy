/** The traces the unit tests of `Repeat` pin down, on the inner operator
    `f(x) = (x + 1, x * x)` with input `x` and outputs `x`, `y`, in mode `eval`. */
module RepeatScenarios {
  import opened KeyedData
  import opened Outcomes
  import opened RepeatCore

  /** The inner operator of every test. Its function reads the single input
      positionally; the value used for an empty argument list is never reached,
      since a run always passes one value per input key. */
  function AddOp(): Operator {
    Operator(["x"], ["x", "y"], {"eval"}, v => var x := if |v| > 0 then v[0] else 0; [x + 1, x * x])
  }

  /** `lambda y: y < bound`: an interior condition on the output `y`. */
  function YBelow(bound: int): Condition {
    Condition(["y"], v => |v| > 0 && v[0] < bound)
  }

  /** `lambda y, z: y + z < 25`: `y` is interior, `z` exterior. */
  function YPlusZBelow25(): Condition {
    Condition(["y", "z"], v => |v| > 1 && v[0] + v[1] < 25)
  }

  lemma AddOpValid()
    ensures ValidOp(AddOp())
  {
  }

  /** One run of the inner operator: `x` is fed back as `x + 1` and `y` becomes `x * x`. */
  lemma AddStep(m: Store)
    requires "x" in m
    ensures ValidOp(AddOp()) && Bound(AddOp().inputs, m)
    ensures Run(AddOp(), m) == m["x" := m["x"] + 1]["y" := m["x"] * m["x"]]
  {
    assert Read(m, ["x"]) == [m["x"]];
  }

  /** The data after n runs from x = x0 (n >= 1): x = x0 + n, y = (x0 + n - 1)^2,
      any other key unchanged. */
  lemma {:induction false} AddTrace(m: Store, n: nat)
    requires "x" in m && n >= 1
    ensures ValidOp(AddOp()) && Bound(AddOp().inputs, m)
    ensures Iterate(AddOp(), m, n) == m["x" := m["x"] + n]["y" := (m["x"] + n - 1) * (m["x"] + n - 1)]
  {
    AddOpValid();
    if n == 1 {
      AddStep(m);
    } else {
      AddTrace(m, n - 1);
      var p := Iterate(AddOp(), m, n - 1);
      AddStep(p);
      assert p["x"] == m["x"] + n - 1;
    }
  }

  /** Reading the outputs `x`, `y`. */
  lemma ReadOutputs(m: Store)
    requires "x" in m && "y" in m
    ensures Read(m, ["x", "y"]) == [m["x"], m["y"]]
  {
  }

  /** After n runs from x = 1 the outputs are [n + 1, n * n]. */
  lemma OutputsAfter(m: Store, n: nat)
    requires "x" in m && m["x"] == 1 && n >= 1
    ensures ValidOp(AddOp()) && Bound(AddOp().inputs, m)
    ensures Bound(["x", "y"], Iterate(AddOp(), m, n))
    ensures Read(Iterate(AddOp(), m, n), ["x", "y"]) == [n + 1, n * n]
  {
    AddTrace(m, n);
    ReadOutputs(Iterate(AddOp(), m, n));
  }

  /** The wrapper's keys and modes for a fixed count: `inputs` is `['x']`,
      `outputs` is `['x', 'y']`, `mode` is `{'eval'}`. */
  lemma FixedCountKeys(n: int)
    requires n >= 1
    ensures NewRepeat(AddOp(), Times(n)).Ok?
    ensures var r := NewRepeat(AddOp(), Times(n)).value;
      r.inputs == ["x"] && r.outputs == ["x", "y"] && r.mode == {"eval"} && Valid(r)
  {
    AddOpValid();
  }

  /** repeat=1 on x=1 gives [2, 1]; repeat=5 gives [6, 25]. */
  lemma FixedCountTraces(limit: nat)
    ensures NewRepeat(AddOp(), Times(1)).Ok? && Valid(NewRepeat(AddOp(), Times(1)).value)
    ensures ForwardSpec(NewRepeat(AddOp(), Times(1)).value, [1], limit) == Ok([2, 1])
    ensures NewRepeat(AddOp(), Times(5)).Ok? && Valid(NewRepeat(AddOp(), Times(5)).value)
    ensures ForwardSpec(NewRepeat(AddOp(), Times(5)).value, [1], limit) == Ok([6, 25])
  {
    FixedCountKeys(1);
    FixedCountKeys(5);
    var r1, r5 := NewRepeat(AddOp(), Times(1)).value, NewRepeat(AddOp(), Times(5)).value;
    assert Seed(r1, [1])["x"] == 1;
    assert Seed(r5, [1])["x"] == 1;
    OutputsAfter(Seed(r1, [1]), 1);
    OutputsAfter(Seed(r5, [1]), 5);
  }

  /** An interior condition adds no inputs: `inputs` stays `['x']`. */
  lemma InteriorKeys(bound: int)
    ensures NewRepeat(AddOp(), While(YBelow(bound))).Ok?
    ensures var r := NewRepeat(AddOp(), While(YBelow(bound))).value;
      r.inputs == ["x"] && r.outputs == ["x", "y"] && r.mode == {"eval"} && Valid(r)
  {
    AddOpValid();
    InteriorOnlyKeepsInputs(AddOp(), YBelow(bound));
  }

  /** `y < 1` is false after the first run, which still happens: [2, 1]. */
  lemma InteriorStopsAfterOne(limit: nat)
    requires limit >= 1
    ensures NewRepeat(AddOp(), While(YBelow(1))).Ok? && Valid(NewRepeat(AddOp(), While(YBelow(1))).value)
    ensures ForwardSpec(NewRepeat(AddOp(), While(YBelow(1))).value, [1], limit) == Ok([2, 1])
  {
    InteriorKeys(1);
    var r := NewRepeat(AddOp(), While(YBelow(1))).value;
    var s := Seed(r, [1]);
    assert s["x"] == 1;
    AddTrace(s, 1);
    SeedBinds(r, [1]);
    WhileStopsAt(r, [1], limit, 1);
    OutputsAfter(s, 1);
  }

  /** After run j from x = 1: y = j * j, and `y < bound` is tested on it. */
  lemma YBelowAfter(m: Store, bound: int, j: nat)
    requires "x" in m && m["x"] == 1 && j >= 1
    ensures ValidOp(AddOp()) && Bound(AddOp().inputs, m)
    ensures Bound(YBelow(bound).params, Iterate(AddOp(), m, j))
    ensures Continues(YBelow(bound), Iterate(AddOp(), m, j)) <==> j * j < bound
  {
    AddTrace(m, j);
    var p := Iterate(AddOp(), m, j);
    assert Read(p, ["y"]) == [p["y"]];
  }

  /** `y < 25` holds after runs 1 to 4 (y = 1, 4, 9, 16) and fails after run 5: [6, 25]. */
  lemma InteriorStopsAfterFive(limit: nat)
    requires limit >= 5
    ensures NewRepeat(AddOp(), While(YBelow(25))).Ok? && Valid(NewRepeat(AddOp(), While(YBelow(25))).value)
    ensures ForwardSpec(NewRepeat(AddOp(), While(YBelow(25))).value, [1], limit) == Ok([6, 25])
  {
    InteriorKeys(25);
    var r := NewRepeat(AddOp(), While(YBelow(25))).value;
    var s := Seed(r, [1]);
    var c := YBelow(25);
    assert s["x"] == 1;
    SeedBinds(r, [1]);
    YBelowAfter(s, 25, 5);
    forall j | 1 <= j < 5 ensures Continues(c, Iterate(AddOp(), s, j)) {
      YBelowAfter(s, 25, j);
      assert j * j < 25;
    }
    WhileStopsAt(r, [1], limit, 5);
    OutputsAfter(s, 5);
  }

  /** The exterior parameter `z` is appended: `inputs` is `['x', 'z']`. */
  lemma ExteriorKeys()
    ensures NewRepeat(AddOp(), While(YPlusZBelow25())).Ok?
    ensures var r := NewRepeat(AddOp(), While(YPlusZBelow25())).value;
      r.inputs == ["x", "z"] && r.outputs == ["x", "y"] && r.mode == {"eval"} && Valid(r)
  {
    AddOpValid();
    assert "z" !in AddOp().outputs;
  }

  /** With z = 11 held constant, `y + z < 25` holds after runs 1 to 3
      (12, 15, 20) and fails after run 4 (27): [5, 16], the fixed-count trace
      with repeat=4. */
  lemma ExteriorStopsAfterFour(limit: nat)
    requires limit >= 4
    ensures NewRepeat(AddOp(), While(YPlusZBelow25())).Ok? && Valid(NewRepeat(AddOp(), While(YPlusZBelow25())).value)
    ensures ForwardSpec(NewRepeat(AddOp(), While(YPlusZBelow25())).value, [1, 11], limit) == Ok([5, 16])
    ensures RunCount(NewRepeat(AddOp(), While(YPlusZBelow25())).value, [1, 11], limit) == Ok(4)
  {
    ExteriorKeys();
    var r := NewRepeat(AddOp(), While(YPlusZBelow25())).value;
    var s := Seed(r, [1, 11]);
    var c := YPlusZBelow25();
    assert s["x"] == 1 && s["z"] == 11;
    SeedBinds(r, [1, 11]);
    forall j | 1 <= j <= 4
      ensures Iterate(AddOp(), s, j)["y"] == j * j
      ensures Iterate(AddOp(), s, j)["z"] == 11
    {
      AddTrace(s, j);
    }
    forall j | 1 <= j < 4 ensures Continues(c, Iterate(AddOp(), s, j)) {
      AddTrace(s, j);
    }
    assert !Continues(c, Iterate(AddOp(), s, 4)) by { AddTrace(s, 4); }
    WhileStopsAt(r, [1, 11], limit, 4);
    OutputsAfter(s, 4);
  }

  /** Only the values of the inner function matter: two operators with the same
      keys whose functions agree on every argument run identically, whatever
      their functions' own parameter names were. */
  lemma {:induction false} SameFunctionSameRuns(op1: Operator, op2: Operator, m: Store, n: nat)
    requires ValidOp(op1) && ValidOp(op2) && Bound(op1.inputs, m)
    requires op1.inputs == op2.inputs && op1.outputs == op2.outputs
    requires forall v :: op1.fn(v) == op2.fn(v)
    ensures Iterate(op1, m, n) == Iterate(op2, m, n)
  {
    if n > 0 {
      SameFunctionSameRuns(op1, op2, m, n - 1);
    }
  }
}
