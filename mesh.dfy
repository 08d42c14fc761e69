/** The mesh pass: draws the loaded mesh into the HDR and depth images.
    It keeps no per-frame state; the only per-draw data is the camera
    transform, pushed as a constant to the vertex stage. */
module MeshPass {
  import opened Gpu

  /** A 4x4 matrix as the 16 words pushed to the shader; its bytes come from
      the camera maths, which is not part of this model. */
  type Transform = s: seq<Word> | |s| == 16 witness seq(16, _ => 0)

  /** The built pipeline holds nothing. */
  datatype Pipeline = Pipeline

  /** Building never fails and yields the stateless pipeline, whatever the
      graph context and the images handed to the pass. */
  function Build(ctx: GraphContext, images: seq<NodeImage>): (r: Result<Pipeline>)
    ensures r.Ok?
  {
    Ok(Pipeline)
  }

  /** The commands one frame records: nothing without a mesh; otherwise the
      transform as a vertex-stage push constant at offset 0, then the mesh
      bound at vertex binding 0 and drawn as one instance. */
  function DrawCommands(mesh: Option<Id>, transform: Transform): seq<Command>
  {
    match mesh
    case None => []
    case Some(m) => [PushConstants(VertexStage, 0, transform), BindAndDraw(m, 0, Range(0, 1))]
  }

  /** Records one frame's draw. The frame index is accepted and ignored. */
  method Draw(p: Pipeline, encoder: Encoder, index: nat, mesh: Option<Id>, transform: Transform)
    modifies encoder
    ensures encoder.commands == old(encoder.commands) + DrawCommands(mesh, transform)
  {
    if mesh.Some? {
      encoder.Record(PushConstants(VertexStage, 0, transform));
      encoder.Record(BindAndDraw(mesh.value, 0, Range(0, 1)));
    }
  }

  /** Disposing the pipeline releases nothing and asks nothing of the device. */
  method Dispose(p: Pipeline, factory: Factory)
    ensures factory.next == old(factory.next) && factory.log == old(factory.log)
  {
  }

  /** How many draw commands a command sequence holds. */
  function Draws(commands: seq<Command>): nat
  {
    if commands == [] then 0
    else (if commands[0].BindAndDraw? || commands[0].DrawVertices? then 1 else 0) + Draws(commands[1..])
  }

  /** With no mesh loaded the pass records nothing; with a mesh it records
      exactly one draw, covering one instance at vertex binding 0, preceded
      by exactly one push constant of 16 words at offset 0 for the vertex
      stage. */
  lemma DrawShape(mesh: Option<Id>, transform: Transform)
    ensures var cmds := DrawCommands(mesh, transform);
            && (mesh.None? <==> cmds == [])
            && Draws(cmds) == (if mesh.Some? then 1 else 0)
            && (mesh.Some? ==>
                  && |cmds| == 2
                  && cmds[0].PushConstants? && cmds[0].stages == VertexStage
                  && cmds[0].offset == 0 && |cmds[0].data| == 16
                  && cmds[1] == BindAndDraw(mesh.value, 0, Range(0, 1)))
  {
    var cmds := DrawCommands(mesh, transform);
    if mesh.Some? {
      assert cmds[1..][1..] == [];
      assert Draws(cmds[1..]) == 1;
    }
  }
}
