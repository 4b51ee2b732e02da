/** Outcome datatypes shared by the modules of this project. */
module Outcomes {
  datatype Option<T> = None | Some(value: T)

  datatype Result<T, E> = Ok(value: T) | Err(error: E)
}

/** The `Repeat` meta operator, common to its NumPy and tensor variants: it
    wraps one inner operator and re-invokes it a fixed number of times, or
    until a condition over named values turns false, feeding each run's
    outputs back through the keyed data of the call. */
module RepeatCore {
  import opened KeyedData
  import opened Outcomes

  type Mode = string

  /** An operator: ordered input keys, ordered output keys, the modes it runs
      in, and its forward function, applied positionally to the values of the
      input keys. */
  datatype Operator = Operator(inputs: seq<Key>, outputs: seq<Key>, mode: set<Mode>, fn: seq<int> -> seq<int>)

  /** The operator contract: one value per output key for one value per input key. */
  ghost predicate ValidOp(op: Operator) {
    forall v: seq<int> :: |v| == |op.inputs| ==> |op.fn(v)| == |op.outputs|
  }

  /** A repeat condition: the declared parameter names, and the test applied
      positionally to the values bound to those names. */
  datatype Condition = Condition(params: seq<Key>, test: seq<int> -> bool)

  /** The `repeat` argument: a fixed count or a condition. */
  datatype Count = Times(n: int) | While(cond: Condition)

  datatype Error =
    | InvalidConfiguration  // a fixed count below 1
    | ArityMismatch         // the call's data does not line up with `inputs`
    | OutOfFuel             // the condition still held after the allowed number of runs

  /** A constructed wrapper: the inner operator, its count, and the key lists
      and modes it presents to the surrounding pipeline. */
  datatype Repeat = Repeat(op: Operator, count: Count, inputs: seq<Key>, outputs: seq<Key>, mode: set<Mode>)

  /** Position of the first occurrence of `x` in `s`. */
  function IndexOf(s: seq<Key>, x: Key): (i: nat)
    requires x in s
    ensures i < |s| && s[i] == x
    ensures forall j :: 0 <= j < i ==> s[j] != x
  {
    if s[0] == x then 0 else 1 + IndexOf(s[1..], x)
  }

  /** The condition's parameters that must be supplied from outside the loop:
      those that name no inner output and are not in `present` yet, each once,
      in the order they are first declared. */
  function Exterior(params: seq<Key>, outputs: seq<Key>, present: seq<Key>): (ext: seq<Key>)
    ensures Distinct(ext)
    ensures forall i :: 0 <= i < |ext| ==> ext[i] in params && ext[i] !in outputs && ext[i] !in present
    ensures forall k :: k in params ==> k in outputs || k in present || k in ext
    ensures (forall k :: k in params ==> k in outputs || k in present) ==> ext == []
    decreases |params|
  {
    if params == [] then []
    else if params[0] in outputs || params[0] in present then Exterior(params[1..], outputs, present)
    else [params[0]] + Exterior(params[1..], outputs, present + [params[0]])
  }

  /** Builds the wrapper. It fails exactly for a fixed count below 1;
      otherwise it passes the inner outputs and modes through, keeps the inner
      inputs first, and appends each exterior parameter once (a parameter that
      is neither an output nor an inner input), so that every parameter is
      bound at call time. */
  function NewRepeat(op: Operator, count: Count): (res: Result<Repeat, Error>)
    ensures res.Err? <==> count.Times? && count.n < 1
    ensures res.Err? ==> res.error == InvalidConfiguration
    ensures res.Ok? ==>
      var r := res.value;
      && r.op == op && r.count == count
      && r.outputs == op.outputs && r.mode == op.mode
      && |op.inputs| <= |r.inputs| && r.inputs[..|op.inputs|] == op.inputs
      && Distinct(Appended(r))
      && (count.Times? ==> r.inputs == op.inputs)
      && (count.While? ==> forall i :: 0 <= i < |Appended(r)| ==>
            Appended(r)[i] in count.cond.params && Appended(r)[i] !in op.outputs && Appended(r)[i] !in op.inputs)
      && (count.While? ==> forall k :: k in count.cond.params ==> k in r.inputs || k in op.outputs)
      && (ValidOp(op) ==> Valid(r))
  {
    if count.Times? && count.n < 1 then Err(InvalidConfiguration)
    else
      var extra := if count.While? then Exterior(count.cond.params, op.outputs, op.inputs) else [];
      var r := Repeat(op, count, op.inputs + extra, op.outputs, op.mode);
      assert Appended(r) == extra;
      Ok(r)
  }

  /** What a constructed wrapper guarantees to `Forward`. */
  ghost predicate Valid(r: Repeat) {
    && ValidOp(r.op)
    && |r.op.inputs| <= |r.inputs| && r.inputs[..|r.op.inputs|] == r.op.inputs
    && (forall k :: k in r.inputs[|r.op.inputs|..] ==> k !in r.op.inputs)
    && r.outputs == r.op.outputs
    && (r.count.Times? ==> r.count.n >= 1)
    && (r.count.While? ==> forall k :: k in r.count.cond.params ==> k in r.inputs || k in r.op.outputs)
  }

  /** The names appended to the inner inputs. */
  function Appended(r: Repeat): seq<Key>
    requires |r.op.inputs| <= |r.inputs|
  {
    r.inputs[|r.op.inputs|..]
  }

  /** A condition that names only inner outputs adds no inputs. */
  lemma InteriorOnlyKeepsInputs(op: Operator, c: Condition)
    requires forall k :: k in c.params ==> k in op.outputs
    ensures NewRepeat(op, While(c)).Ok?
    ensures NewRepeat(op, While(c)).value.inputs == op.inputs
  {
    assert op.inputs + [] == op.inputs;
  }

  /** The names of `ext` appear in the order of their first occurrence in `params`. */
  predicate InFirstOrder(params: seq<Key>, ext: seq<Key>)
    requires forall i :: 0 <= i < |ext| ==> ext[i] in params
  {
    forall i, j :: 0 <= i < j < |ext| ==> IndexOf(params, ext[i]) < IndexOf(params, ext[j])
  }

  /** The exterior names follow the order in which the condition first declares them. */
  lemma {:induction false} ExteriorOrder(params: seq<Key>, outputs: seq<Key>, present: seq<Key>)
    ensures InFirstOrder(params, Exterior(params, outputs, present))
    decreases |params|
  {
    if params != [] {
      var kept := params[0] in outputs || params[0] in present;
      var present' := if kept then present else present + [params[0]];
      var tail := Exterior(params[1..], outputs, present');
      ExteriorOrder(params[1..], outputs, present');
      ShiftOrder(params, tail, outputs, present');
      if !kept {
        ConsOrder(params, tail);
      }
    }
  }

  /** Every name of the tail differs from params[0], so its first index in
      `params` is one more than its first index in params[1..]. */
  lemma ShiftOrder(params: seq<Key>, tail: seq<Key>, outputs: seq<Key>, present': seq<Key>)
    requires params != [] && (params[0] in outputs || params[0] in present')
    requires tail == Exterior(params[1..], outputs, present')
    requires InFirstOrder(params[1..], tail)
    ensures forall i :: 0 <= i < |tail| ==> tail[i] in params[1..] && IndexOf(params, tail[i]) == 1 + IndexOf(params[1..], tail[i])
    ensures InFirstOrder(params, tail)
  {
  }

  lemma ConsOrder(params: seq<Key>, tail: seq<Key>)
    requires params != []
    requires forall i :: 0 <= i < |tail| ==> tail[i] in params[1..] && IndexOf(params, tail[i]) == 1 + IndexOf(params[1..], tail[i])
    requires InFirstOrder(params, tail)
    ensures InFirstOrder(params, [params[0]] + tail)
  {
    var ext := [params[0]] + tail;
    forall i, j | 0 <= i < j < |ext| ensures IndexOf(params, ext[i]) < IndexOf(params, ext[j]) {
      assert ext[j] == tail[j - 1];
      if i > 0 {
        assert ext[i] == tail[i - 1];
      }
    }
  }

  /** The data of one call, keyed by the wrapper's inputs. */
  function Seed(r: Repeat, data: seq<int>): (m: Store)
    requires |data| == |r.inputs|
    ensures Bound(r.inputs, m)
  {
    Write(map[], r.inputs, data)
  }

  /** The seed is `dict(zip(inputs, data))`: it holds exactly the wrapper's
      inputs, each with the value at its last position in `data`. */
  lemma SeedValues(r: Repeat, data: seq<int>)
    requires |data| == |r.inputs|
    ensures forall k :: k in Seed(r, data) <==> k in r.inputs
    ensures forall i :: 0 <= i < |data| && LastOccurrence(r.inputs, i) ==> Seed(r, data)[r.inputs[i]] == data[i]
  {
    WriteAt(map[], r.inputs, data);
    WriteOnlyKeys(map[], r.inputs, data);
  }

  /** One invocation of the inner operator: read its inputs by name, apply it,
      and store each output under its key. */
  function Run(op: Operator, m: Store): (m': Store)
    requires ValidOp(op) && Bound(op.inputs, m)
    ensures forall k :: k in m ==> k in m'
    ensures Bound(op.outputs, m')
  {
    Write(m, op.outputs, op.fn(Read(m, op.inputs)))
  }

  /** The data after `n` invocations of the inner operator. */
  function Iterate(op: Operator, m: Store, n: nat): (m': Store)
    requires ValidOp(op) && Bound(op.inputs, m)
    ensures forall k :: k in m ==> k in m'
    ensures n > 0 ==> Bound(op.outputs, m')
  {
    if n == 0 then m else Run(op, Iterate(op, m, n - 1))
  }

  /** The condition evaluated on the current values of its parameters. */
  function Continues(c: Condition, m: Store): bool
    requires Bound(c.params, m)
  {
    c.test(Read(m, c.params))
  }

  /** The condition is called on the values of its named parameters and
      nothing else: two dictionaries that agree on them give the same answer. */
  lemma ContinuesByName(c: Condition, m1: Store, m2: Store)
    requires Bound(c.params, m1) && Bound(c.params, m2)
    requires forall k :: k in c.params ==> m1[k] == m2[k]
    ensures Continues(c, m1) == Continues(c, m2)
  {
    assert Read(m1, c.params) == Read(m2, c.params);
  }

  /** The condition loop from seed `s` after `runs` invocations: the number of
      invocations at which the condition first fails, or None if it still
      holds after `limit` invocations. */
  function Stop(op: Operator, c: Condition, s: Store, runs: nat, limit: nat): Option<nat>
    requires ValidOp(op) && Bound(op.inputs, s) && Binds(op, c, s) && runs >= 1
    decreases limit - runs
  {
    if !Continues(c, Iterate(op, s, runs)) then Some(runs)
    else if runs >= limit then None
    else Stop(op, c, s, runs + 1, limit)
  }

  /** How many times `Forward` invokes the inner operator; in condition mode at
      most `limit` times, which bounds a condition that never turns false. */
  function RunCount(r: Repeat, data: seq<int>, limit: nat): Result<nat, Error>
    requires Valid(r)
  {
    if |data| != |r.inputs| then Err(ArityMismatch)
    else match r.count
      case Times(n) => Ok(n as nat)
      case While(c) =>
        if limit == 0 then Err(OutOfFuel)
        else
          assert Binds(r.op, c, Seed(r, data)) && Bound(r.op.inputs, Seed(r, data)) by { SeedBinds(r, data); }
          match Stop(r.op, c, Seed(r, data), 1, limit)
          case Some(k) => Ok(k)
          case None => Err(OutOfFuel)
  }

  /** The result of one call: the output values after the runs `RunCount` gives. */
  function ForwardSpec(r: Repeat, data: seq<int>, limit: nat): Result<seq<int>, Error>
    requires Valid(r)
  {
    match RunCount(r, data, limit)
    case Err(e) => Err(e)
    case Ok(k) =>
      assert k >= 1 by { StopAtLeastOnce(r, data, limit); }
      Ok(Read(Iterate(r.op, Seed(r, data), k), r.outputs))
  }

  lemma StopAtLeastOnce(r: Repeat, data: seq<int>, limit: nat)
    requires Valid(r)
    ensures RunCount(r, data, limit).Ok? ==> RunCount(r, data, limit).value >= 1
  {
    if RunCount(r, data, limit).Ok? && r.count.While? && |data| == |r.inputs| {
      SeedBinds(r, data);
      StopBounds(r.op, r.count.cond, Seed(r, data), 1, limit);
    }
  }

  lemma {:induction false} StopBounds(op: Operator, c: Condition, s: Store, runs: nat, limit: nat)
    requires ValidOp(op) && Bound(op.inputs, s) && Binds(op, c, s) && runs >= 1
    ensures Stop(op, c, s, runs, limit).Some? ==> Stop(op, c, s, runs, limit).value >= runs
    ensures Stop(op, c, s, runs, limit).Some? && runs <= limit ==> Stop(op, c, s, runs, limit).value <= limit
    decreases limit - runs
  {
    if Continues(c, Iterate(op, s, runs)) && runs < limit {
      StopBounds(op, c, s, runs + 1, limit);
    }
  }

  /** Every condition parameter names an inner output or a key of `m`. */
  ghost predicate Binds(op: Operator, c: Condition, m: Store) {
    forall k :: k in c.params ==> k in m || k in op.outputs
  }

  /** The loop stops at the first invocation after which the condition is
      false, never later than `limit`. */
  lemma {:induction false} StopIsFirstFalse(op: Operator, c: Condition, s: Store, runs: nat, limit: nat)
    requires ValidOp(op) && Bound(op.inputs, s) && Binds(op, c, s)
    requires 1 <= runs <= limit
    requires Stop(op, c, s, runs, limit).Some?
    ensures var k := Stop(op, c, s, runs, limit).value;
      && runs <= k <= limit
      && !Continues(c, Iterate(op, s, k))
      && forall j {:trigger Continues(c, Iterate(op, s, j))} :: runs <= j < k ==> Continues(c, Iterate(op, s, j))
    decreases limit - runs
  {
    if Continues(c, Iterate(op, s, runs)) {
      assert runs < limit;
      assert Stop(op, c, s, runs, limit) == Stop(op, c, s, runs + 1, limit);
      StopIsFirstFalse(op, c, s, runs + 1, limit);
    } else {
      assert Stop(op, c, s, runs, limit) == Some(runs);
    }
  }

  /** The loop reports None only when the condition held after each of the
      invocations from `runs` to `limit`. */
  lemma {:induction false} StopNoneHeldThroughout(op: Operator, c: Condition, s: Store, runs: nat, limit: nat)
    requires ValidOp(op) && Bound(op.inputs, s) && Binds(op, c, s)
    requires 1 <= runs <= limit
    requires Stop(op, c, s, runs, limit).None?
    ensures forall j {:trigger Continues(c, Iterate(op, s, j))} :: runs <= j <= limit ==> Continues(c, Iterate(op, s, j))
    decreases limit - runs
  {
    if runs < limit {
      StopNoneHeldThroughout(op, c, s, runs + 1, limit);
    }
  }

  /** Condition mode: the inner operator runs until the condition, evaluated
      after each run, is first false; that is at least one run. When the
      condition still holds after `limit` runs the call fails with OutOfFuel. */
  lemma WhileRunsUntilFalse(r: Repeat, data: seq<int>, limit: nat)
    requires Valid(r) && r.count.While? && |data| == |r.inputs|
    ensures Binds(r.op, r.count.cond, Seed(r, data))
    ensures RunCount(r, data, limit).Ok? ==>
      var k := RunCount(r, data, limit).value;
      && 1 <= k <= limit
      && !Continues(r.count.cond, Iterate(r.op, Seed(r, data), k))
      && forall j {:trigger Continues(r.count.cond, Iterate(r.op, Seed(r, data), j))} :: 1 <= j < k ==> Continues(r.count.cond, Iterate(r.op, Seed(r, data), j))
    ensures RunCount(r, data, limit).Err? ==>
      && RunCount(r, data, limit).error == OutOfFuel
      && forall j {:trigger Continues(r.count.cond, Iterate(r.op, Seed(r, data), j))} :: 1 <= j <= limit ==> Continues(r.count.cond, Iterate(r.op, Seed(r, data), j))
  {
    SeedBinds(r, data);
    if limit > 0 {
      if Stop(r.op, r.count.cond, Seed(r, data), 1, limit).Some? {
        StopIsFirstFalse(r.op, r.count.cond, Seed(r, data), 1, limit);
      } else {
        StopNoneHeldThroughout(r.op, r.count.cond, Seed(r, data), 1, limit);
      }
    }
  }

  /** Conversely, the first run after which the condition is false is the run count. */
  lemma WhileStopsAt(r: Repeat, data: seq<int>, limit: nat, k: nat)
    requires Valid(r) && r.count.While? && |data| == |r.inputs|
    requires Binds(r.op, r.count.cond, Seed(r, data))
    requires 1 <= k <= limit
    requires !Continues(r.count.cond, Iterate(r.op, Seed(r, data), k))
    requires forall j {:trigger Continues(r.count.cond, Iterate(r.op, Seed(r, data), j))} :: 1 <= j < k ==> Continues(r.count.cond, Iterate(r.op, Seed(r, data), j))
    ensures RunCount(r, data, limit) == Ok(k)
  {
    WhileRunsUntilFalse(r, data, limit);
  }

  /** The seed binds the inner inputs and, in condition mode, every parameter
      that is not an inner output. */
  lemma SeedBinds(r: Repeat, data: seq<int>)
    requires Valid(r) && |data| == |r.inputs|
    ensures Bound(r.op.inputs, Seed(r, data))
    ensures r.count.While? ==> Binds(r.op, r.count.cond, Seed(r, data))
  {
    assert forall i :: 0 <= i < |r.op.inputs| ==> r.op.inputs[i] == r.inputs[i];
  }

  /** A key that the inner operator never writes keeps its value across all
      runs: exterior values are held constant for the whole call. */
  lemma {:induction false} UnwrittenKeyStays(op: Operator, m: Store, n: nat, k: Key)
    requires ValidOp(op) && Bound(op.inputs, m)
    requires k in m && k !in op.outputs
    ensures Iterate(op, m, n)[k] == m[k]
  {
    if n > 0 {
      UnwrittenKeyStays(op, m, n - 1, k);
      var p := Iterate(op, m, n - 1);
      WriteAt(p, op.outputs, op.fn(Read(p, op.inputs)));
    }
  }

  /** Two states that agree on the inner inputs agree on the inner inputs and
      outputs after the same number of runs: the inner operator sees nothing
      but its own inputs. */
  lemma {:induction false} RunsAreLocal(op: Operator, m1: Store, m2: Store, n: nat)
    requires ValidOp(op) && Bound(op.inputs, m1) && Bound(op.inputs, m2)
    requires forall k :: k in op.inputs ==> m1[k] == m2[k]
    ensures forall k :: k in op.inputs ==> Iterate(op, m1, n)[k] == Iterate(op, m2, n)[k]
    ensures n >= 1 ==> forall k :: k in op.outputs ==> Iterate(op, m1, n)[k] == Iterate(op, m2, n)[k]
  {
    if n > 0 {
      RunsAreLocal(op, m1, m2, n - 1);
      var p1, p2 := Iterate(op, m1, n - 1), Iterate(op, m2, n - 1);
      assert Read(p1, op.inputs) == Read(p2, op.inputs);
      var vals := op.fn(Read(p1, op.inputs));
      WriteAt(p1, op.outputs, vals);
      WriteAt(p2, op.outputs, vals);
      forall k | k in op.outputs ensures Iterate(op, m1, n)[k] == Iterate(op, m2, n)[k] {
        WriteLast(p1, op.outputs, vals, k);
        WriteLast(p2, op.outputs, vals, k);
      }
    }
  }

  /** The keyed data flow re-threads outputs positionally: after a run, an
      inner input that is also an output takes the fresh value of that output
      (its last occurrence), and any other inner input keeps its value. */
  lemma LiveValues(op: Operator, m: Store, i: nat)
    requires ValidOp(op) && Bound(op.inputs, m) && i < |op.inputs|
    ensures Bound(op.inputs, Run(op, m))
    ensures Read(Run(op, m), op.inputs)[i] ==
      if op.inputs[i] in op.outputs then op.fn(Read(m, op.inputs))[LastIndex(op.outputs, op.inputs[i])]
      else m[op.inputs[i]]
  {
    var vals := op.fn(Read(m, op.inputs));
    WriteAt(m, op.outputs, vals);
    if op.inputs[i] in op.outputs {
      WriteLast(m, op.outputs, vals, op.inputs[i]);
    }
  }

  /** A condition-mode call that stops after k runs returns what the
      fixed-count wrapper with count k returns on the same inner inputs. */
  lemma WhileMatchesTimes(rw: Repeat, dw: seq<int>, limit: nat, rt: Repeat, dt: seq<int>, limit': nat)
    requires Valid(rw) && rw.count.While? && |dw| == |rw.inputs|
    requires Valid(rt) && rt.count.Times? && rt.op == rw.op && rt.inputs == rw.op.inputs
    requires |dt| == |rt.inputs| && dw[..|dt|] == dt
    requires RunCount(rw, dw, limit) == Ok(rt.count.n as nat)
    ensures ForwardSpec(rw, dw, limit) == ForwardSpec(rt, dt, limit')
  {
    var op := rw.op;
    var n := |op.inputs|;
    assert rw.inputs == op.inputs + Appended(rw);
    assert dw == dt + dw[n..];
    WriteAppend(map[], op.inputs, Appended(rw), dt, dw[n..]);
    var sw, st := Seed(rw, dw), Seed(rt, dt);
    SeedBinds(rw, dw);
    SeedBinds(rt, dt);
    assert sw == Write(st, Appended(rw), dw[n..]);
    assert forall k :: k in op.inputs ==> sw[k] == st[k] by {
      WriteAt(st, Appended(rw), dw[n..]);
    }
    var k: nat := rt.count.n as nat;
    RunsAreLocal(op, sw, st, k);
    var iw, it := Iterate(op, sw, k), Iterate(op, st, k);
    assert Read(iw, op.outputs) == Read(it, op.outputs);
    assert ForwardSpec(rw, dw, limit) == Ok(Read(iw, op.outputs));
    assert ForwardSpec(rt, dt, limit') == Ok(Read(it, op.outputs));
  }

  /** One call of the wrapper on `data` (aligned with `inputs`): seed the keyed
      data, invoke the inner operator, store its outputs, and repeat either
      `n` times or for as long as the condition, evaluated after each run,
      holds; then return the outputs. In condition mode at most `limit` runs
      are made. */
  method Forward(r: Repeat, data: seq<int>, limit: nat) returns (res: Result<seq<int>, Error>)
    requires Valid(r)
    ensures res == ForwardSpec(r, data, limit)
  {
    if |data| != |r.inputs| {
      return Err(ArityMismatch);
    }
    SeedBinds(r, data);
    ghost var s := Seed(r, data);
    var m := Seed(r, data);
    match r.count {
      case Times(n) =>
        var i := 0;
        while i < n
          invariant 0 <= i <= n
          invariant m == Iterate(r.op, s, i)
        {
          m := Run(r.op, m);
          i := i + 1;
        }
        res := Ok(Read(m, r.outputs));
      case While(c) =>
        if limit == 0 {
          return Err(OutOfFuel);
        }
        m := Run(r.op, m);
        var runs := 1;
        while Continues(c, m)
          invariant 1 <= runs <= limit
          invariant m == Iterate(r.op, s, runs)
          invariant Stop(r.op, c, s, runs, limit) == Stop(r.op, c, s, 1, limit)
          decreases limit - runs
        {
          if runs == limit {
            return Err(OutOfFuel);
          }
          m := Run(r.op, m);
          runs := runs + 1;
        }
        res := Ok(Read(m, r.outputs));
    }
  }
}
