# A model of a two-pass renderer's frame graph, pipelines and event loop

The renderer draws an icosphere into a high-dynamic-range (HDR) image in a
mesh pass. A post-effect pass then samples that image and draws a
full-screen triangle into the image that is presented. A free-fly camera is
driven by the keyboard and the mouse from the window's event loop.

The rendering library owns the frame graph's compilation, its ordering and
the image-layout transitions between passes; none of that is modelled.
This project models the three pieces of sequential logic the repository
itself contains:

- **The event closure of `run`** (module `Demo`). It keeps a six-slot key
  table, the camera's yaw and pitch, the compiled graph until it is
  disposed, and the mesh. `Demo.Step` is one call of the closure as a
  function on values. `Demo.App.HandleEvent` is the same closure, updating
  an object with an `array<bool>` key table in place, and is proved equal
  to `Step`. Requests to the graph, the window and the factory are appended
  to an effect trace: run the graph, dispose it, drop the mesh, request a
  redraw, maintain the factory, move the camera. The invariant `Demo.Inv`
  holds over every event sequence: the graph is disposed at most once,
  only on a close request, and always before the mesh is dropped, and no
  redraw runs it afterwards.
- **The declared frame graph** (module `FrameGraph`). It covers the three
  window-sized images and the three nodes `main` declares, chained mesh →
  post-effect → present. Its lemmas say that this order is the only one
  that respects the declared dependencies, and that every image a node
  reads is written by a node it depends on. They also say that the HDR
  image passes from the mesh pass alone to the post-effect pass alone.
- **The two pipelines** (modules `PostEffect` and `MeshPass`).
  - The post-effect build asks the device for one descriptor pool sized for
    F frames in flight, one point sampler and one view of the HDR image.
    It then allocates and writes one descriptor set per frame.
    `PostEffect.Build` is proved to make exactly this log of device
    requests, and lemmas count what is in it. Its draw binds the frame's own
    set and draws three vertices. Its dispose resets the pool, then
    destroys it.
  - The mesh pass is stateless. Its draw records nothing when no mesh is
    loaded. Otherwise it records one 16-word vertex-stage push constant,
    then one draw of one instance.

GPU objects are abstract ids (`Gpu.Id`). Device requests are appended to
the factory's log (`Gpu.Factory.log`), and recorded commands to an encoder's
trace (`Gpu.Encoder.commands`). Whether the device can create a descriptor
pool is the device's decision, so it is an input (`Gpu.Factory.poolFailure`).
The camera transform pushed by the mesh pass is an opaque 16-word value.
The per-frame elapsed time is not modelled.

Behaviour of the code worth knowing:

- A resize event changes nothing in the code. The graph is not rebuilt
  against the new window size.
- In the code, failing to create the sampler or the image view is a panic,
  not a returned error. So is a missing input image. Only pool creation
  returns an error. The model returns `Aborted` for a missing input image.
- The mesh is loaded before the event loop starts. So, as
  `Demo.DisposalDiscipline` shows, the graph never runs without the mesh,
  although the mesh pass handles a missing mesh.
- Pitch is clamped to ±1.57, not to ±π/2.
- The W key moves the camera against its view direction, and Space
  lowers it along the world z axis. The model keeps these signs (`Demo.Motion`).

## Model

| member | source | states |
|---|---|---|
| `Demo.Slot` | src/main.rs:35-42 | every direction names a slot inside the six-slot key table |
| `Demo.BindingIsOneToOne` | src/main.rs:119-124 | two keys bound to the same direction are the same key, so W, S, A, D, Space and LShift control six different slots |
| `Demo.EverySlotIsBound` | src/main.rs:119-124 | each of the six slots is controlled by one of the bound keys |
| `Demo.App.constructor` | src/main.rs:202-296 | the state the closure starts from when `run` is called: all six key slots released and the camera level (set up at 202-212 with no mesh yet), the compiled graph and the mesh loaded at 274-296 both present |
| `Demo.InitialInv` | src/main.rs:100-110 | the state `run` starts the closure in, with the graph wrapped in `Some` and the mesh already loaded, satisfies the event-loop invariant |
| `Demo.App.HandleEvent` | src/main.rs:109-184 | one call of the closure on the in-place state equals `Step` on the old state, and the control flow is Exit exactly for a close request |
| `Demo.KeyEventSetsOneSlot` | src/main.rs:115-124 | a bound key's event sets exactly its slot to whether the key is pressed; every other slot and the rest of the state are unchanged |
| `Demo.IgnoredEventsChangeNothing` | src/main.rs:111-137 | an unbound key, a key event without a key code, a resize and every ignored event leave the state unchanged and keep polling |
| `Demo.ClampPitch` | src/main.rs:134 | the clamped pitch lies in [-1.57, 1.57], equals the input when that is already in range, and is the in-range value nearest the input |
| `Demo.ClampIsIdempotent` | src/main.rs:134 | clamping a clamped pitch again changes nothing |
| `Demo.MouseMotionTurnsCamera` | src/main.rs:131-135 | mouse motion adds exactly 0.005 × dx to the yaw (never clamped) and sets the pitch to the clamped pitch minus 0.005 × dy, which lies in range; nothing else changes |
| `Demo.MotionIsBounded` | src/main.rs:158-175 | each movement coefficient is -1, 0 or 1, and it is 0 exactly when both keys of its opposing pair are in the same state |
| `Demo.DisposesOnlyOnClose` | src/main.rs:180-183 | a step disposes the graph exactly when the event is a close request and the graph is still present, and the graph becomes absent exactly then |
| `Demo.StepPreservesInv` | src/main.rs:109-184 | every event keeps the invariant: pitch in range, graph and mesh present together until the single disposal, each disposal followed at once by dropping the mesh it saw, no graph run after a disposal, every run with the mesh present |
| `Demo.RunPreservesInv` | src/main.rs:109-184 | the invariant holds after any sequence of events |
| `Demo.RunDisposesOnClose` | src/main.rs:180-183 | after any sequence of events the graph has been disposed exactly when it had been already or a close request was among the events |
| `Demo.DisposalDiscipline` | src/main.rs:108-184 | from the start of `run`, for any events: at most one disposal, made exactly when a close request arrived, the mesh dropped right after it, and no redraw running the graph afterwards |
| `FrameGraph.DeclarationOrderRuns` | src/main.rs:252-272 | mesh pass, post-effect pass, present is an execution order of the declared nodes |
| `FrameGraph.ExecutionOrderIsUnique` | src/main.rs:252-272 | it is the only order that runs each node once, after every node it depends on |
| `FrameGraph.ReadsFollowWrites` | src/main.rs:252-272 | every image a node samples or presents is written by a node it was declared to depend on |
| `FrameGraph.HdrHandOff` | src/main.rs:252-267 | the HDR image is written by the mesh pass alone and read by the post-effect pass alone |
| `FrameGraph.PostEffectInputAgrees` | src/main.rs:229-266 | the post-effect node is given as many images as its pipeline declares, the given image is the HDR image, and the view its build creates has the HDR image's declared format |
| `FrameGraph.ImagesAreWindowSized` | src/main.rs:216-250 | every declared image is a 2D image of exactly the window's size, with one layer, one sample and one mip level |
| `PostEffect.DeclaredResources` | src/pipelines/post_effect.rs:64-103 | one image access (shader read, sampled, shader-read-only layout, fragment stage); no depth-stencil; one set layout with binding 0 a sampler and binding 1 a sampled image, each a single fragment-stage descriptor; no push constants |
| `PostEffect.Build` | src/pipelines/post_effect.rs:105-186 | a pool failure is returned with nothing created; a missing input image aborts after pool and sampler; otherwise the pool holds F sets and the ranges asked for, exactly F fresh sets are allocated and written, each allocation succeeds and together they use up the pool's descriptors of each type exactly, and the device log is exactly pool, sampler, view, then one write per set |
| `PostEffect.BuildLogCounts` | src/pipelines/post_effect.rs:118-178 | a successful build creates exactly one pool, one sampler and one view whatever F is, makes one write request per set, and destroys nothing |
| `PostEffect.WriteLogCount` | src/pipelines/post_effect.rs:155-178 | the loop's requests are one descriptor write per set and nothing else |
| `PostEffect.SetNeedsOneOfEach` | src/pipelines/post_effect.rs:81-103 | one set of the layout takes exactly one sampler descriptor and one sampled-image descriptor |
| `PostEffect.PoolRoomIsExact` | src/pipelines/post_effect.rs:118-157 | with k sets of the layout allocated, the pool sized for F frames has the descriptors for one more set if and only if k < F, so the F allocations of the loop never run out of descriptors |
| `PostEffect.PoolFitsLayout` | src/pipelines/post_effect.rs:118-133 | per descriptor type, the pool holds exactly F times what one set of the layout needs |
| `PostEffect.WritesMatchLayout` | src/pipelines/post_effect.rs:159-175 | each set's writes cover the layout's bindings one to one, in order, each with a descriptor of the binding's declared type |
| `PostEffect.ImageWriteMatchesAccess` | src/pipelines/post_effect.rs:166-173 | the image binding is written with the layout the pass declares it reads the image in |
| `PostEffect.EverySetSharesSamplerAndView` | src/pipelines/post_effect.rs:155-178 | every set's binding 0 is the one shared sampler and binding 1 the one shared view in shader-read-only layout |
| `PostEffect.Draw` | src/pipelines/post_effect.rs:195-211 | for a frame index below F, draw appends exactly: bind that frame's set at slot 0, then draw vertices 0..3 and instances 0..1 |
| `PostEffect.FramesBindDistinctSets` | src/pipelines/post_effect.rs:203-208 | two different frames in flight bind two different descriptor sets |
| `PostEffect.Dispose` | src/pipelines/post_effect.rs:213-218 | the pool is reset and then destroyed, with no set left allocated, and the factory log gains exactly the destruction |
| `MeshPass.Build` | src/pipelines/mesh.rs:94-105 | building always succeeds |
| `MeshPass.Draw` | src/pipelines/mesh.rs:114-132 | draw appends exactly the mesh pass's commands for the loaded mesh and transform, whatever the frame index |
| `MeshPass.DrawShape` | src/pipelines/mesh.rs:121-130 | without a mesh nothing is recorded; with one, a 16-word vertex-stage push constant at offset 0 comes first, then exactly one draw: the mesh at vertex binding 0, instances 0..1 |
| `MeshPass.Dispose` | src/pipelines/mesh.rs:134 | disposing asks nothing of the device |

## Left out

- Camera maths (view direction, view, projection and transform matrices, src/main.rs:70-89): trigonometry and matrix products in 32-bit floats. The mesh pass receives the transform as an opaque 16-word value.
- Movement integration (src/main.rs:147-175): the float normalisation, the cross product and the elapsed-time speed. Only the per-axis coefficients held keys ask for are modelled (`Demo.Motion`).
- Demo.App.HandleEvent: yaw and pitch are reals, so the 32-bit float rounding of `delta * 0.005` and the behaviour of `min`/`max` on NaN are not modelled.
- Frame timing and the FPS printout (src/main.rs:147-149): clock and console I/O.
- Shader loading, compilation and reflection (both `lazy_static` blocks, `load_shader_set`, and the mesh pipeline's `vertices` and `layout`, src/pipelines/mesh.rs:73-92): file I/O and a foreign compiler. The mesh layout therefore has no model.
- Graph compilation and execution: the rendering library orders the nodes, resolves images, inserts layout transitions, builds each pipeline and calls its draw and dispose. Only the declared nodes and edges are modelled. `Demo` records running and disposing the graph as single effects, so the order in which the library disposes the passes is not modelled.
- PostEffect.Build: sampler and image-view creation always succeed in the model. In the source a device failure there is a panic (`unwrap`/`expect`). The `allocate_set(..).unwrap()` inside the loop is proved never to fail for lack of sets or of descriptors of either type. The pool model tracks only set and descriptor counts, so running out of host or device memory and pool fragmentation are not modelled.
- PostEffect.Dispose: the sampler and the view go back to the library's escape queue when the pipeline is dropped. That release is the library's, and is not modelled.
- MeshPass.Draw: `bind_and_draw` is assumed to succeed, and its vertex and index buffer binding is a single `BindAndDraw` command.
- The winit event loop stopping after Exit has no counterpart: `Demo.Run` goes on handling events after a close request, which covers every run the real loop can make.
- Window creation is not modelled. `request_redraw` and `factory.maintain` are recorded only as effects. Mesh generation and the GPU semantics of resources and descriptor writes are not modelled.
- Which set layout the graph hands to the post-effect build is not modelled: the build allocates sets of the layout the pass declares.
