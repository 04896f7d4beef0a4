/**
  Opaque handles of the inference runtime (Unity Sentis) that the pipeline
  drives. Only what the pipeline observes of them is modelled: the graph a
  model was built from, the shape of a tensor, the size of a texture, the
  backend a worker runs on, whether a handle has been disposed and what was
  handed to a worker to execute. The networks themselves are not modelled.
*/
module Sentis {
  import opened Wrappers

  /** The execution backends a worker can be created for. */
  datatype BackendType = GPUCompute | GPUPixel | CPU

  /** A model asset found under a resource path. */
  datatype ModelAsset = ModelAsset(path: string)

  /**
    The computational graph behind a model: either the graph imported from
    an asset, or a graph that multiplies input 0 by `factor` and then runs
    `inner`.
  */
  datatype Graph = Imported(asset: ModelAsset) | InputScaled(factor: real, inner: Graph)

  /** Number of input-scaling stages wrapped around the imported graph. */
  function ScaleStages(g: Graph): nat
  {
    match g
    case Imported(_) => 0
    case InputScaled(_, inner) => 1 + ScaleStages(inner)
  }

  /** The factor by which the graph multiplies input 0 before the imported network sees it. */
  function InputScale(g: Graph): real
  {
    match g
    case Imported(_) => 1.0
    case InputScaled(f, inner) => f * InputScale(inner)
  }

  /** The graph imported from `asset` with `k` stages that each multiply input 0 by 255. */
  function Stacked255(k: nat, asset: ModelAsset): Graph
  {
    if k == 0 then Imported(asset) else InputScaled(255.0, Stacked255(k - 1, asset))
  }

  function Power(b: real, k: nat): real
  {
    if k == 0 then 1.0 else b * Power(b, k - 1)
  }

  /** `k` stacked x255 stages scale the input by 255^k. */
  lemma {:induction false} Stacked255Scale(k: nat, asset: ModelAsset)
    ensures ScaleStages(Stacked255(k, asset)) == k
    ensures InputScale(Stacked255(k, asset)) == Power(255.0, k)
  {
    if k > 0 {
      Stacked255Scale(k - 1, asset);
    }
  }

  /** A loaded model: an object wrapping a graph. Every load yields a new object. */
  class Model {
    const graph: Graph

    constructor (graph: Graph)
      ensures this.graph == graph
    {
      this.graph := graph;
    }
  }

  /** The resource lookup `Resources.Load`: the asset stored under `path`, if any. */
  function ResourcesLoad(resources: map<string, ModelAsset>, path: string): Option<ModelAsset>
  {
    if path in resources then Some(resources[path]) else None
  }

  /** `ModelLoader.Load`: a new model object for the graph imported from `asset`. */
  method LoadModel(asset: ModelAsset) returns (m: Model)
    ensures fresh(m) && m.graph == Imported(asset)
  {
    m := new Model(Imported(asset));
  }

  /**
    A functional graph that takes the inputs of `m`, multiplies input 0 by
    `factor`, forwards everything through `m` and is compiled to a new model.
  */
  method CompileInputScaled(factor: real, m: Model) returns (compiled: Model)
    ensures fresh(compiled) && compiled.graph == InputScaled(factor, m.graph)
  {
    compiled := new Model(InputScaled(factor, m.graph));
  }

  /** The graph of a possibly missing model. */
  function GraphOf(m: Model?): Option<Graph>
  {
    if m == null then None else Some(m.graph)
  }

  /** What is known of a tensor's contents: given values, all zeros, or nothing (produced by a network). */
  datatype TensorData = Values(values: seq<real>) | Zeros | Opaque

  datatype Tensor = Tensor(shape: seq<int>, data: TensorData)

  /** A texture, seen through its pixel size. */
  datatype Texture = Texture(width: int, height: int)

  /** A worker of the current Sentis API: runs one model on one backend. */
  class Worker {
    const model: Model
    const backend: BackendType
    var disposed: bool
    /** Every input array handed to `Schedule`, in order. */
    var scheduled: seq<seq<Option<Tensor>>>

    constructor (model: Model, backend: BackendType)
      ensures this.model == model && this.backend == backend
      ensures !disposed && scheduled == []
    {
      this.model := model;
      this.backend := backend;
      disposed := false;
      scheduled := [];
    }

    method Schedule(inputs: seq<Option<Tensor>>)
      modifies this
      ensures scheduled == old(scheduled) + [inputs] && disposed == old(disposed)
    {
      scheduled := scheduled + [inputs];
    }

    method Dispose()
      modifies this
      ensures disposed && scheduled == old(scheduled)
    {
      disposed := true;
    }
  }

  /** A worker of the older Sentis API (`IWorker`), fed with a dictionary of named inputs. */
  class LegacyWorker {
    const model: Model
    const backend: BackendType
    var disposed: bool
    /** Every input dictionary handed to `Execute`, in order. */
    var executed: seq<map<string, Tensor>>

    constructor (model: Model, backend: BackendType)
      ensures this.model == model && this.backend == backend
      ensures !disposed && executed == []
    {
      this.model := model;
      this.backend := backend;
      disposed := false;
      executed := [];
    }

    method Execute(inputs: map<string, Tensor>)
      modifies this
      ensures executed == old(executed) + [inputs] && disposed == old(disposed)
    {
      executed := executed + [inputs];
    }

    method Dispose()
      modifies this
      ensures disposed && executed == old(executed)
    {
      disposed := true;
    }
  }

  /** The tensor allocator of the older API. */
  class Allocator {
    var disposed: bool

    constructor ()
      ensures !disposed
    {
      disposed := false;
    }

    method Dispose()
      modifies this
      ensures disposed
    {
      disposed := true;
    }
  }

  /** The operator object of the older API, bound to a backend and an allocator. */
  class Ops {
    const backend: BackendType
    const allocator: Allocator
    var disposed: bool

    constructor (backend: BackendType, allocator: Allocator)
      ensures this.backend == backend && this.allocator == allocator && !disposed
    {
      this.backend := backend;
      this.allocator := allocator;
      disposed := false;
    }

    method Dispose()
      modifies this
      ensures disposed
    {
      disposed := true;
    }
  }
}
