/** The tensor-operator variant of `Repeat`. It differs from the NumPy one only
    in its `build(backend)` step, which selects the tensor backend before any
    call; the wrapper performs no backend-specific computation itself. */
module TensorMeta {
  import opened Outcomes
  import opened RepeatCore
  import RepeatScenarios

  /** The tensor backends a pipeline can build for. */
  datatype Backend = Tf | Torch

  class TensorRepeat {
    /** The constructed wrapper: inner operator, count, inputs, outputs, mode. */
    const config: Repeat
    /** The backend last selected by `Build`. */
    var backend: Option<Backend>

    ghost predicate Valid()
      reads this
    {
      RepeatCore.Valid(config)
    }

    /** Wraps a constructed `Repeat`; no backend is selected yet. */
    constructor (r: Repeat)
      requires RepeatCore.Valid(r)
      ensures Valid() && config == r && backend == None
    {
      config := r;
      backend := None;
    }

    /** Selects the backend; calling it again with the same backend leaves the
        same state, and nothing but the selection changes. */
    method Build(b: Backend)
      requires Valid()
      modifies this
      ensures Valid() && backend == Some(b)
    {
      backend := Some(b);
    }

    /** One call; the result is the same function of the data whichever
        backend was built. */
    method Forward(data: seq<int>, limit: nat) returns (res: Result<seq<int>, Error>)
      requires Valid()
      ensures res == ForwardSpec(config, data, limit)
    {
      res := RepeatCore.Forward(config, data, limit);
    }
  }

  /** Building for 'tf' or 'torch' yields the same outputs: repeat=5 from x=1
      gives [6, 25] on both backends. */
  method BackendsAgree(limit: nat) returns (tf: Result<seq<int>, Error>, torch: Result<seq<int>, Error>)
    ensures tf == torch == Ok([6, 25])
  {
    RepeatScenarios.FixedCountKeys(5);
    RepeatScenarios.FixedCountTraces(limit);
    var r := NewRepeat(RepeatScenarios.AddOp(), Times(5)).value;
    var a := new TensorRepeat(r);
    a.Build(Tf);
    tf := a.Forward([1], limit);
    var b := new TensorRepeat(r);
    b.Build(Torch);
    torch := b.Forward([1], limit);
  }

  /** Building twice, or for another backend, never changes what a call returns. */
  method RebuildKeepsResults(r: Repeat, data: seq<int>, limit: nat) returns (first: Result<seq<int>, Error>, second: Result<seq<int>, Error>)
    requires RepeatCore.Valid(r)
    ensures first == second == ForwardSpec(r, data, limit)
  {
    var a := new TensorRepeat(r);
    a.Build(Tf);
    first := a.Forward(data, limit);
    a.Build(Torch);
    a.Build(Torch);
    second := a.Forward(data, limit);
  }
}
