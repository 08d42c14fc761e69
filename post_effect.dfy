/** The post-effect pass: samples the HDR image written by the mesh pass
    and draws a full-screen triangle into the presented colour image.

    Its declarations are constant tables; building it creates one
    descriptor pool sized for every frame in flight, one shared sampler,
    one shared view of the HDR image, and one descriptor set per frame in
    flight, each written once to point at the shared sampler and view. */
module PostEffect {
  import opened Gpu

  // ---------------------------------------------------------------------
  // Declarations

  /** The one image the pass reads: sampled by the fragment shader. */
  function Images(): seq<ImageAccess>
  {
    [ImageAccess(ShaderRead, Sampled, ShaderReadOnlyOptimal, FragmentShaderStage)]
  }

  /** The pass has no depth or stencil test. */
  function DepthStencil(): Option<DepthStencilDesc>
  {
    None
  }

  /** A single descriptor set: a sampler at binding 0 and a sampled image at
      binding 1, both seen by the fragment stage; no push constants. */
  function PipelineLayout(): Layout
  {
    Layout(
      [SetLayout([
         SetLayoutBinding(0, SamplerType, 1, FragmentStage, false),
         SetLayoutBinding(1, SampledImageType, 1, FragmentStage, false)
       ])],
      [])
  }

  // ---------------------------------------------------------------------
  // What build asks of the device

  /** The descriptor ranges of the pool for `frames` frames in flight. */
  function PoolRanges(frames: nat): seq<RangeDesc>
  {
    [RangeDesc(SamplerType, frames), RangeDesc(SampledImageType, frames)]
  }

  /** The shared point sampler: nearest filtering, clamped addressing. */
  function PointSampler(): SamplerDesc
  {
    SamplerDesc(Nearest, Clamp)
  }

  /** The shared view of the HDR image. */
  function HdrView(range: SubresourceRange): ViewInfo
  {
    ViewInfo(D2, Rgba32Sfloat, NoSwizzle, range)
  }

  /** The two writes that make one descriptor set point at the shared
      sampler and the shared view. */
  function SetWrites(target: SetId, sampler: Id, view: Id): seq<SetWrite>
  {
    [ SetWrite(target, 0, 0, SamplerDescriptor(sampler)),
      SetWrite(target, 1, 0, ImageDescriptor(view, ShaderReadOnlyOptimal)) ]
  }

  /** The write requests logged for the sets, one per set, in order. */
  function WriteLog(sets: seq<SetId>, sampler: Id, view: Id): seq<DeviceOp>
  {
    seq(|sets|, k requires 0 <= k < |sets| => SetsWritten(SetWrites(sets[k], sampler, view)))
  }

  /** The allocations the pool records for the sets, in order. */
  function Allocations(sets: seq<SetId>): seq<PoolEvent>
  {
    seq(|sets|, k requires 0 <= k < |sets| => Allocated(sets[k]))
  }

  /** Every request a successful build makes of the device, in order. */
  function BuildLog(pool: Id, frames: nat, image: Id, range: SubresourceRange,
                    sampler: Id, view: Id, sets: seq<SetId>): seq<DeviceOp>
  {
    [ PoolCreated(pool, frames, PoolRanges(frames)),
      SamplerCreated(sampler, PointSampler()),
      ViewCreated(view, image, HdrView(range)) ]
    + WriteLog(sets, sampler, view)
  }

  /** The concrete image the pass's first image slot resolved to, if the
      pass was given an image and the graph knows it. */
  function Input(ctx: GraphContext, images: seq<NodeImage>): Option<Id>
  {
    if |images| == 0 || images[0].id !in ctx.images then None
    else Some(ctx.images[images[0].id])
  }

  // ---------------------------------------------------------------------
  // The built pipeline

  datatype Pipeline = Pipeline(sets: seq<SetId>, pool: DescriptorPool, sampler: Id, view: Id)

  /** A build either yields a pipeline, reports the device's error, or
      aborts (a panic in the source). */
  datatype BuildResult =
    | Built(pipeline: Pipeline)
    | Failed(error: CreationError)
    | Aborted(reason: string)

  /** A live pipeline: one set per pool slot, all still allocated. */
  ghost predicate Valid(p: Pipeline)
    reads p.pool
  {
    && !p.pool.destroyed
    && p.pool.live == p.sets
    && |p.sets| == p.pool.maxSets
  }

  lemma WriteLogSnoc(sets: seq<SetId>, x: SetId, sampler: Id, view: Id)
    ensures WriteLog(sets + [x], sampler, view) == WriteLog(sets, sampler, view) + [SetsWritten(SetWrites(x, sampler, view))]
  {
  }

  lemma AllocationsSnoc(sets: seq<SetId>, x: SetId)
    ensures Allocations(sets + [x]) == Allocations(sets) + [Allocated(x)]
  {
  }

  /** Builds the pipeline for `ctx.framesInFlight` frames: creates the pool,
      the sampler and the view, then allocates and writes one set per frame,
      which uses up the pool's descriptors exactly, so no allocation fails.
      A pool-creation failure is returned before anything else is created;
      a missing input image aborts after the pool and sampler exist. */
  method Build(ctx: GraphContext, factory: Factory, images: seq<NodeImage>) returns (r: BuildResult)
    modifies factory
    ensures factory.poolFailure.Some? ==>
              r == Failed(factory.poolFailure.value)
              && factory.next == old(factory.next) && factory.log == old(factory.log)
    ensures factory.poolFailure.None? && Input(ctx, images).None? ==>
              r.Aborted?
              && factory.log == old(factory.log)
                 + [ PoolCreated(old(factory.next), ctx.framesInFlight, PoolRanges(ctx.framesInFlight)),
                     SamplerCreated(old(factory.next) + 1, PointSampler()) ]
    ensures factory.poolFailure.None? && Input(ctx, images).Some? ==>
              r.Built? && fresh(r.pipeline.pool) && Valid(r.pipeline)
              && r.pipeline.pool.id == old(factory.next)
              && r.pipeline.pool.maxSets == ctx.framesInFlight
              && r.pipeline.pool.ranges == PoolRanges(ctx.framesInFlight)
              && (forall ty :: BindingTotal(r.pipeline.pool.usage, ty) == RangeTotal(r.pipeline.pool.ranges, ty))
              && r.pipeline.sampler == old(factory.next) + 1
              && r.pipeline.view == old(factory.next) + 2
              && |r.pipeline.sets| == ctx.framesInFlight
              && (forall k :: 0 <= k < |r.pipeline.sets| ==> r.pipeline.sets[k] == SetId(old(factory.next), k))
              && r.pipeline.pool.history == Allocations(r.pipeline.sets)
              && factory.next == old(factory.next) + 3
              && factory.log == old(factory.log)
                 + BuildLog(old(factory.next), ctx.framesInFlight, Input(ctx, images).value, images[0].range,
                            old(factory.next) + 1, old(factory.next) + 2, r.pipeline.sets)
  {
    var frames := ctx.framesInFlight;
    var created := factory.CreateDescriptorPool(frames, PoolRanges(frames));
    if created.Err? {
      return Failed(created.error);
    }
    var pool := created.value;
    var sampler := factory.CreateSampler(PointSampler());
    if |images| == 0 {
      return Aborted("index out of bounds");
    }
    if images[0].id !in ctx.images {
      return Aborted("No input image supplied.");
    }
    var image := ctx.images[images[0].id];
    var view := factory.CreateImageView(image, HdrView(images[0].range));
    var setLayout := PipelineLayout().sets[0];
    ghost var before := factory.log;
    var sets: seq<SetId> := [];
    for i := 0 to frames
      invariant |sets| == i
      invariant forall k :: 0 <= k < i ==> sets[k] == SetId(pool.id, k)
      invariant !pool.destroyed && pool.live == sets && pool.issued == i
      invariant pool.ranges == PoolRanges(frames)
      invariant forall ty :: BindingTotal(pool.usage, ty) == i
      invariant pool.history == Allocations(sets)
      invariant factory.next == old(factory.next) + 3
      invariant factory.log == before + WriteLog(sets, sampler, view)
    {
      ghost var used := pool.usage;
      forall ty ensures BindingTotal(used + setLayout.bindings, ty) <= RangeTotal(pool.ranges, ty) {
        BindingTotalAppend(used, setLayout.bindings, ty);
        PoolFitsLayout(frames, ty);
        SetNeedsOneOfEach(ty);
      }
      var newSet := pool.AllocateSet(setLayout);
      assert newSet.Some?;
      forall ty ensures BindingTotal(pool.usage, ty) == i + 1 {
        BindingTotalAppend(used, setLayout.bindings, ty);
        SetNeedsOneOfEach(ty);
      }
      factory.WriteDescriptorSets(SetWrites(newSet.value, sampler, view));
      WriteLogSnoc(sets, newSet.value, sampler, view);
      AllocationsSnoc(sets, newSet.value);
      sets := sets + [newSet.value];
    }
    forall ty ensures BindingTotal(pool.usage, ty) == RangeTotal(pool.ranges, ty) {
      PoolFitsLayout(frames, ty);
      SetNeedsOneOfEach(ty);
    }
    r := Built(Pipeline(sets, pool, sampler, view));
  }

  /** The commands one frame records: bind the frame's own set at slot 0,
      then draw the full-screen triangle. */
  function DrawCommands(sets: seq<SetId>, index: nat): seq<Command>
    requires index < |sets|
  {
    [BindDescriptorSets(0, [sets[index]]), DrawVertices(Range(0, 3), Range(0, 1))]
  }

  /** Records frame `index`'s draw; the frame index must name a frame in flight. */
  method Draw(p: Pipeline, encoder: Encoder, index: nat)
    requires index < |p.sets|
    modifies encoder
    ensures encoder.commands == old(encoder.commands) + DrawCommands(p.sets, index)
  {
    encoder.Record(BindDescriptorSets(0, [p.sets[index]]));
    encoder.Record(DrawVertices(Range(0, 3), Range(0, 1)));
  }

  /** Resets the pool, then destroys it. */
  method Dispose(p: Pipeline, factory: Factory)
    requires !p.pool.destroyed
    modifies p.pool, factory
    ensures p.pool.history == old(p.pool.history) + [WasReset, WasDestroyed]
    ensures p.pool.live == [] && p.pool.destroyed
    ensures factory.next == old(factory.next)
    ensures factory.log == old(factory.log) + [PoolDestroyed(p.pool.id)]
  {
    p.pool.Reset();
    factory.DestroyDescriptorPool(p.pool);
  }

  // ---------------------------------------------------------------------
  // Properties

  /** A successful build makes exactly one pool, one sampler and one view,
      however many frames are in flight, and one write request per set. */
  lemma {:induction false} BuildLogCounts(pool: Id, frames: nat, image: Id, range: SubresourceRange,
                                          sampler: Id, view: Id, sets: seq<SetId>)
    ensures Count(BuildLog(pool, frames, image, range, sampler, view, sets), PoolOp) == 1
    ensures Count(BuildLog(pool, frames, image, range, sampler, view, sets), SamplerOp) == 1
    ensures Count(BuildLog(pool, frames, image, range, sampler, view, sets), ViewOp) == 1
    ensures Count(BuildLog(pool, frames, image, range, sampler, view, sets), WriteOp) == |sets|
    ensures Count(BuildLog(pool, frames, image, range, sampler, view, sets), DestroyOp) == 0
  {
    var head := [ PoolCreated(pool, frames, PoolRanges(frames)),
                  SamplerCreated(sampler, PointSampler()),
                  ViewCreated(view, image, HdrView(range)) ];
    assert BuildLog(pool, frames, image, range, sampler, view, sets) == head + WriteLog(sets, sampler, view);
    assert head[..2] == [head[0], head[1]] && [head[0], head[1]][..1] == [head[0]] && [head[0]][..0] == [];
    forall kind: OpKind
      ensures Count(head, kind) == if kind in {PoolOp, SamplerOp, ViewOp} then 1 else 0
    {
      assert Count([head[0]], kind) == if kind == PoolOp then 1 else 0;
      assert Count([head[0], head[1]], kind) == if kind in {PoolOp, SamplerOp} then 1 else 0;
    }
    forall kind: OpKind
      ensures Count(BuildLog(pool, frames, image, range, sampler, view, sets), kind)
              == Count(head, kind) + (if kind == WriteOp then |sets| else 0)
    {
      CountAppend(head, WriteLog(sets, sampler, view), kind);
      WriteLogCount(sets, sampler, view, kind);
    }
  }

  /** The write log holds one write request per set and nothing else. */
  lemma {:induction false} WriteLogCount(sets: seq<SetId>, sampler: Id, view: Id, kind: OpKind)
    ensures Count(WriteLog(sets, sampler, view), kind) == if kind == WriteOp then |sets| else 0
  {
    if sets != [] {
      var init := sets[..|sets| - 1];
      assert sets == init + [sets[|sets| - 1]];
      WriteLogSnoc(init, sets[|sets| - 1], sampler, view);
      WriteLogCount(init, sampler, view, kind);
    }
  }

  /** The pass reads one image, sampled in shader-read-only layout by the
      fragment stage, has no depth or stencil test, and binds one set of
      two distinct single-descriptor fragment-stage bindings and no push
      constants. */
  lemma DeclaredResources()
    ensures |Images()| == 1
    ensures Images()[0] == ImageAccess(ShaderRead, Sampled, ShaderReadOnlyOptimal, FragmentShaderStage)
    ensures DepthStencil().None?
    ensures |PipelineLayout().sets| == 1 && PipelineLayout().pushConstants == []
    ensures var bindings := PipelineLayout().sets[0].bindings;
            && |bindings| == 2
            && bindings[0].binding == 0 && bindings[0].ty == SamplerType
            && bindings[1].binding == 1 && bindings[1].ty == SampledImageType
            && forall k :: 0 <= k < |bindings| ==>
                 bindings[k].count == 1 && bindings[k].stages == FragmentStage && !bindings[k].immutableSamplers
  {
  }

  /** The pool holds exactly the descriptors `frames` sets of the layout
      need: per descriptor type, `frames` times what one set asks for. */
  lemma PoolFitsLayout(frames: nat, ty: DescriptorType)
    ensures RangeTotal(PoolRanges(frames), ty) == frames * BindingTotal(PipelineLayout().sets[0].bindings, ty)
  {
    var ranges := PoolRanges(frames);
    var bindings := PipelineLayout().sets[0].bindings;
    assert ranges[1..][1..] == [] && bindings[1..][1..] == [];
    assert RangeTotal(ranges[1..], ty) == (if ty == SampledImageType then frames else 0);
    assert BindingTotal(bindings[1..], ty) == (if ty == SampledImageType then 1 else 0);
  }

  /** One set of the layout takes exactly one descriptor of each type. */
  lemma SetNeedsOneOfEach(ty: DescriptorType)
    ensures BindingTotal(PipelineLayout().sets[0].bindings, ty) == 1
  {
    var bindings := PipelineLayout().sets[0].bindings;
    assert bindings[1..][1..] == [];
    assert BindingTotal(bindings[1..], ty) == (if ty == SampledImageType then 1 else 0);
  }

  /** The pool's descriptors are exactly enough for `frames` sets: once
      `k` sets of the layout are allocated, there is room for one more if
      and only if `k < frames`. So descriptors never run out before the
      set count does. */
  lemma PoolRoomIsExact(frames: nat, usage: seq<SetLayoutBinding>, k: nat)
    requires forall ty :: BindingTotal(usage, ty) == k
    ensures HasRoom(PoolRanges(frames), usage, PipelineLayout().sets[0]) <==> k < frames
  {
    var layout := PipelineLayout().sets[0];
    forall ty ensures BindingTotal(usage + layout.bindings, ty) == k + 1
                      && RangeTotal(PoolRanges(frames), ty) == frames {
      BindingTotalAppend(usage, layout.bindings, ty);
      SetNeedsOneOfEach(ty);
      PoolFitsLayout(frames, ty);
    }
    if !(k < frames) {
      assert BindingTotal(usage + layout.bindings, SamplerType) > RangeTotal(PoolRanges(frames), SamplerType);
    }
  }

  /** Every set the build writes covers each binding of the layout exactly
      once, in order, with a descriptor of the binding's declared type. */
  lemma WritesMatchLayout(target: SetId, sampler: Id, view: Id)
    ensures var writes := SetWrites(target, sampler, view);
            var bindings := PipelineLayout().sets[0].bindings;
            && |writes| == |bindings|
            && forall k :: 0 <= k < |writes| ==>
                 && writes[k].target == target
                 && writes[k].binding == bindings[k].binding
                 && TypeOf(writes[k].descriptor) == bindings[k].ty
                 && writes[k].arrayOffset < bindings[k].count
  {
  }

  /** The layout the image binding is written with is the layout the pass
      declares it reads the image in. */
  lemma ImageWriteMatchesAccess(target: SetId, sampler: Id, view: Id)
    ensures SetWrites(target, sampler, view)[1].descriptor.layout == Images()[0].layout
  {
  }

  /** Set `k` of the write log points binding 0 at the shared sampler and
      binding 1 at the shared view in shader-read-only layout. */
  lemma EverySetSharesSamplerAndView(sets: seq<SetId>, sampler: Id, view: Id, k: nat)
    requires k < |sets|
    ensures WriteLog(sets, sampler, view)[k] == SetsWritten([
              SetWrite(sets[k], 0, 0, SamplerDescriptor(sampler)),
              SetWrite(sets[k], 1, 0, ImageDescriptor(view, ShaderReadOnlyOptimal)) ])
  {
  }

  /** Two different frames in flight bind two different descriptor sets. */
  lemma FramesBindDistinctSets(pool: Id, sets: seq<SetId>, i: nat, j: nat)
    requires forall k :: 0 <= k < |sets| ==> sets[k] == SetId(pool, k)
    requires i < |sets| && j < |sets| && i != j
    ensures DrawCommands(sets, i)[0] != DrawCommands(sets, j)[0]
  {
  }
}
