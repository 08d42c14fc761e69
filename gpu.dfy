/** The device-side vocabulary shared by the passes: abstract handles, the
    descriptor and command values the pipelines produce, and small stateful
    stand-ins for the factory, a descriptor pool and a render-pass encoder.
    Every request made of the device is appended to a log, every command
    recorded into an encoder is appended to its command trace. */
module Gpu {

  datatype Option<+T> = None | Some(value: T)

  /** Handles of device objects (images, samplers, views, pools, meshes),
      kept abstract. */
  type Id = nat

  /** A 32-bit word, the unit of push-constant data. */
  newtype Word = x: int | 0 <= x < 0x1_0000_0000

  /** A half-open range `start..end`. */
  datatype Range = Range(start: nat, end: nat)

  datatype ShaderStage = VertexStage | FragmentStage
  datatype PipelineStage = FragmentShaderStage
  datatype Format = Rgba32Sfloat | D32Sfloat | SurfaceFormat(code: nat)
  datatype ImageLayout =
    | Undefined
    | General
    | ColorAttachmentOptimal
    | DepthStencilAttachmentOptimal
    | ShaderReadOnlyOptimal
    | Present
  datatype ImageAccessFlags = ShaderRead
  datatype ImageUsage = Sampled
  datatype DescriptorType = SamplerType | SampledImageType
  datatype Filter = Nearest | Linear
  datatype WrapMode = Tile | Mirror | Clamp | Border
  datatype SamplerDesc = SamplerDesc(filter: Filter, wrap: WrapMode)
  datatype ViewKind = D1 | D2 | D3 | Cube
  datatype Swizzle = NoSwizzle
  datatype SubresourceRange = SubresourceRange(levels: Range, layers: Range)
  datatype ViewInfo = ViewInfo(kind: ViewKind, format: Format, swizzle: Swizzle, range: SubresourceRange)

  /** What a descriptor-set binding can be made to point at. */
  datatype Descriptor =
    | SamplerDescriptor(sampler: Id)
    | ImageDescriptor(view: Id, layout: ImageLayout)

  /** The descriptor type a descriptor has to be written into. */
  function TypeOf(d: Descriptor): DescriptorType
  {
    match d
    case SamplerDescriptor(_) => SamplerType
    case ImageDescriptor(_, _) => SampledImageType
  }

  /** A descriptor set: the pool it came from and its allocation number. */
  datatype SetId = SetId(pool: Id, serial: nat)

  datatype SetWrite = SetWrite(target: SetId, binding: nat, arrayOffset: nat, descriptor: Descriptor)

  /** How many descriptors of one type a pool holds. */
  datatype RangeDesc = RangeDesc(ty: DescriptorType, count: nat)

  datatype CreationError = OutOfHostMemory | OutOfDeviceMemory | OtherCreationError

  datatype Result<+T> = Ok(value: T) | Err(error: CreationError)

  /** The frame graph's view of the device while a pass is being built: how
      many frames may be in flight, and which concrete image each of the
      pass's image slots resolved to. */
  datatype GraphContext = GraphContext(framesInFlight: nat, images: map<Id, Id>)

  /** An image handed to a pass: its graph id and the subresources it covers. */
  datatype NodeImage = NodeImage(id: Id, range: SubresourceRange)

  /** How a pass uses one image it reads. */
  datatype ImageAccess = ImageAccess(access: ImageAccessFlags, usage: ImageUsage, layout: ImageLayout, stages: PipelineStage)

  /** Depth and stencil test state of a pipeline. */
  datatype DepthStencilDesc = DepthStencilDesc(depthTest: bool, depthWrite: bool)

  datatype SetLayoutBinding = SetLayoutBinding(binding: nat, ty: DescriptorType, count: nat, stages: ShaderStage, immutableSamplers: bool)
  datatype SetLayout = SetLayout(bindings: seq<SetLayoutBinding>)

  /** Total number of descriptors of one type a pool's ranges provide. */
  function RangeTotal(ranges: seq<RangeDesc>, ty: DescriptorType): nat
  {
    if ranges == [] then 0
    else (if ranges[0].ty == ty then ranges[0].count else 0) + RangeTotal(ranges[1..], ty)
  }

  /** Total number of descriptors of one type a sequence of bindings asks for. */
  function BindingTotal(bindings: seq<SetLayoutBinding>, ty: DescriptorType): nat
  {
    if bindings == [] then 0
    else (if bindings[0].ty == ty then bindings[0].count else 0) + BindingTotal(bindings[1..], ty)
  }

  lemma {:induction false} BindingTotalAppend(a: seq<SetLayoutBinding>, b: seq<SetLayoutBinding>, ty: DescriptorType)
    ensures BindingTotal(a + b, ty) == BindingTotal(a, ty) + BindingTotal(b, ty)
  {
    if a == [] {
      assert a + b == b;
    } else {
      assert (a + b)[1..] == a[1..] + b;
      BindingTotalAppend(a[1..], b, ty);
    }
  }

  /** Whether a pool whose live sets use the bindings `usage` still has, for
      every descriptor type, the descriptors one more set of `layout` needs. */
  ghost predicate HasRoom(ranges: seq<RangeDesc>, usage: seq<SetLayoutBinding>, layout: SetLayout)
  {
    forall ty: DescriptorType :: BindingTotal(usage + layout.bindings, ty) <= RangeTotal(ranges, ty)
  }
  datatype PushConstantRange = PushConstantRange(stages: ShaderStage, offset: nat, size: nat)

  /** A pipeline layout: its descriptor-set layouts and push-constant ranges. */
  datatype Layout = Layout(sets: seq<SetLayout>, pushConstants: seq<PushConstantRange>)

  /** A request made of the device, as it appears in the factory's log. */
  datatype DeviceOp =
    | PoolCreated(pool: Id, maxSets: nat, ranges: seq<RangeDesc>)
    | SamplerCreated(sampler: Id, desc: SamplerDesc)
    | ViewCreated(view: Id, image: Id, info: ViewInfo)
    | SetsWritten(writes: seq<SetWrite>)
    | PoolDestroyed(pool: Id)

  datatype OpKind = PoolOp | SamplerOp | ViewOp | WriteOp | DestroyOp

  function KindOf(op: DeviceOp): OpKind
  {
    match op
    case PoolCreated(_, _, _) => PoolOp
    case SamplerCreated(_, _) => SamplerOp
    case ViewCreated(_, _, _) => ViewOp
    case SetsWritten(_) => WriteOp
    case PoolDestroyed(_) => DestroyOp
  }

  /** How many requests of one kind a log holds. */
  function Count(log: seq<DeviceOp>, kind: OpKind): nat
  {
    if log == [] then 0
    else Count(log[..|log| - 1], kind) + (if KindOf(log[|log| - 1]) == kind then 1 else 0)
  }

  lemma {:induction false} CountAppend(a: seq<DeviceOp>, b: seq<DeviceOp>, kind: OpKind)
    ensures Count(a + b, kind) == Count(a, kind) + Count(b, kind)
  {
    if b != [] {
      calc {
        Count(a + b, kind);
        { assert (a + b)[..|a + b| - 1] == a + b[..|b| - 1]; }
        Count(a + b[..|b| - 1], kind) + (if KindOf(b[|b| - 1]) == kind then 1 else 0);
        { CountAppend(a, b[..|b| - 1], kind); }
        Count(a, kind) + Count(b, kind);
      }
    } else {
      assert a + b == a;
    }
  }

  /** A command recorded into a render-pass encoder. */
  datatype Command =
    | BindDescriptorSets(firstSet: nat, sets: seq<SetId>)
    | DrawVertices(vertices: Range, instances: Range)
    | PushConstants(stages: ShaderStage, offset: nat, data: seq<Word>)
    | BindAndDraw(mesh: Id, firstBinding: nat, instances: Range)

  /** A render-pass encoder: the commands recorded so far, in order. */
  class Encoder {
    var commands: seq<Command>

    constructor ()
      ensures commands == []
    {
      commands := [];
    }

    method Record(c: Command)
      modifies this
      ensures commands == old(commands) + [c]
    {
      commands := commands + [c];
    }
  }

  /** What happened to a descriptor pool, in order. */
  datatype PoolEvent = Allocated(descriptorSet: SetId) | WasReset | WasDestroyed

  /** A descriptor pool: room for `maxSets` sets at a time, drawing their
      descriptors from the per-type totals of `ranges`. */
  class DescriptorPool {
    const id: Id
    const maxSets: nat
    const ranges: seq<RangeDesc>
    /** The sets currently allocated from this pool. */
    var live: seq<SetId>
    /** The bindings of the live sets' layouts, one layout after another:
        the descriptors those sets take up. */
    var usage: seq<SetLayoutBinding>
    /** How many sets this pool has handed out in all. */
    var issued: nat
    var destroyed: bool
    var history: seq<PoolEvent>

    constructor (id: Id, maxSets: nat, ranges: seq<RangeDesc>)
      ensures this.id == id && this.maxSets == maxSets && this.ranges == ranges
      ensures live == [] && usage == [] && issued == 0 && !destroyed && history == []
    {
      this.id := id;
      this.maxSets := maxSets;
      this.ranges := ranges;
      live := [];
      usage := [];
      issued := 0;
      destroyed := false;
      history := [];
    }

    /** Allocates one set of `layout`, or reports that the pool is out of
        sets or out of descriptors of some type. */
    method AllocateSet(layout: SetLayout) returns (r: Option<SetId>)
      requires !destroyed
      modifies this
      ensures r.Some? <==> |old(live)| < maxSets && HasRoom(ranges, old(usage), layout)
      ensures r.Some? ==>
                r.value == SetId(id, old(issued))
                && live == old(live) + [r.value] && usage == old(usage) + layout.bindings
                && issued == old(issued) + 1
                && history == old(history) + [Allocated(r.value)]
      ensures r.None? ==>
                live == old(live) && usage == old(usage) && issued == old(issued) && history == old(history)
      ensures destroyed == old(destroyed)
    {
      var needed := usage + layout.bindings;
      var room := BindingTotal(needed, SamplerType) <= RangeTotal(ranges, SamplerType)
                  && BindingTotal(needed, SampledImageType) <= RangeTotal(ranges, SampledImageType);
      if |live| < maxSets && room {
        r := Some(SetId(id, issued));
        live := live + [r.value];
        usage := needed;
        issued := issued + 1;
        history := history + [Allocated(r.value)];
      } else {
        r := None;
      }
    }

    /** Frees every set allocated from the pool, and their descriptors. */
    method Reset()
      requires !destroyed
      modifies this
      ensures live == [] && usage == [] && issued == old(issued) && !destroyed
      ensures history == old(history) + [WasReset]
    {
      live := [];
      usage := [];
      history := history + [WasReset];
    }
  }

  /** The factory: creates device objects under fresh handles and logs every
      request. Whether the device can create a descriptor pool is the
      device's own business; `poolFailure` is its answer. */
  class Factory {
    /** The next fresh handle. */
    var next: Id
    var log: seq<DeviceOp>
    const poolFailure: Option<CreationError>

    constructor (poolFailure: Option<CreationError>)
      ensures next == 0 && log == [] && this.poolFailure == poolFailure
    {
      next := 0;
      log := [];
      this.poolFailure := poolFailure;
    }

    method CreateDescriptorPool(maxSets: nat, ranges: seq<RangeDesc>) returns (r: Result<DescriptorPool>)
      modifies this
      ensures r.Err? <==> poolFailure.Some?
      ensures r.Err? ==> r.error == poolFailure.value && next == old(next) && log == old(log)
      ensures r.Ok? ==>
                fresh(r.value) && r.value.id == old(next) && r.value.maxSets == maxSets
                && r.value.ranges == ranges && r.value.live == [] && r.value.usage == [] && r.value.issued == 0 && !r.value.destroyed && r.value.history == []
                && next == old(next) + 1 && log == old(log) + [PoolCreated(old(next), maxSets, ranges)]
    {
      if poolFailure.Some? {
        r := Err(poolFailure.value);
      } else {
        var pool := new DescriptorPool(next, maxSets, ranges);
        log := log + [PoolCreated(next, maxSets, ranges)];
        next := next + 1;
        r := Ok(pool);
      }
    }

    method CreateSampler(desc: SamplerDesc) returns (sampler: Id)
      modifies this
      ensures sampler == old(next) && next == old(next) + 1
      ensures log == old(log) + [SamplerCreated(sampler, desc)]
    {
      sampler := next;
      log := log + [SamplerCreated(sampler, desc)];
      next := next + 1;
    }

    method CreateImageView(image: Id, info: ViewInfo) returns (view: Id)
      modifies this
      ensures view == old(next) && next == old(next) + 1
      ensures log == old(log) + [ViewCreated(view, image, info)]
    {
      view := next;
      log := log + [ViewCreated(view, image, info)];
      next := next + 1;
    }

    method WriteDescriptorSets(writes: seq<SetWrite>)
      modifies this
      ensures next == old(next) && log == old(log) + [SetsWritten(writes)]
    {
      log := log + [SetsWritten(writes)];
    }

    method DestroyDescriptorPool(pool: DescriptorPool)
      requires !pool.destroyed
      modifies this, pool
      ensures next == old(next) && log == old(log) + [PoolDestroyed(pool.id)]
      ensures pool.destroyed && pool.live == old(pool.live) && pool.usage == old(pool.usage)
      ensures pool.issued == old(pool.issued)
      ensures pool.history == old(pool.history) + [WasDestroyed]
    {
      pool.destroyed := true;
      pool.history := pool.history + [WasDestroyed];
      log := log + [PoolDestroyed(pool.id)];
    }
  }
}
