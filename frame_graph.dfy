/** The frame graph as `main` declares it: three window-sized images and
    three nodes chained by explicit dependencies (mesh pass, then post-effect
    pass, then present). Compiling and running the graph is the graph
    library's work and is not modelled; what is modelled is the declaration
    and the properties any execution order of it must have. */
module FrameGraph {
  import opened Gpu
  import PostEffect

  datatype ImageName = ColorImage | HdrImage | DepthImage

  datatype ImageKind = D2Kind(width: nat, height: nat, layers: nat, samples: nat)

  datatype ClearValue =
    | ClearColor(r: real, g: real, b: real, a: real)
    | ClearDepthStencil(depth: real, stencil: nat)

  datatype ImageDecl = ImageDecl(name: ImageName, kind: ImageKind, levels: nat, format: Format, clear: Option<ClearValue>)

  /** The clear colour of the colour and HDR images. */
  const BACKGROUND: ClearValue := ClearColor(0.1, 0.3, 0.4, 1.0)

  /** The declared images for a window of `width` by `height` pixels whose
      surface has format `surface`. */
  function DeclaredImages(width: nat, height: nat, surface: Format): seq<ImageDecl>
  {
    var kind := D2Kind(width, height, 1, 1);
    [ ImageDecl(ColorImage, kind, 1, surface, Some(BACKGROUND)),
      ImageDecl(HdrImage, kind, 1, Rgba32Sfloat, Some(BACKGROUND)),
      ImageDecl(DepthImage, kind, 1, D32Sfloat, Some(ClearDepthStencil(1.0, 0))) ]
  }

  datatype NodeName = MeshNode | PostEffectNode | PresentNode

  /** A node: the images it samples, its colour and depth attachments, the
      image it presents, and the nodes it was declared to depend on. */
  datatype NodeDecl = NodeDecl(
    name: NodeName,
    sampled: seq<ImageName>,
    colors: seq<ImageName>,
    depthStencil: Option<ImageName>,
    presents: Option<ImageName>,
    deps: seq<NodeName>)

  function DeclaredNodes(): seq<NodeDecl>
  {
    [ NodeDecl(MeshNode, [], [HdrImage], Some(DepthImage), None, []),
      NodeDecl(PostEffectNode, [HdrImage], [ColorImage], None, None, [MeshNode]),
      NodeDecl(PresentNode, [], [], None, Some(ColorImage), [PostEffectNode]) ]
  }

  predicate Writes(n: NodeDecl, image: ImageName)
  {
    image in n.colors || n.depthStencil == Some(image)
  }

  predicate Reads(n: NodeDecl, image: ImageName)
  {
    image in n.sampled || n.presents == Some(image)
  }

  /** `a` comes before `b` in `order`. */
  predicate Before(order: seq<NodeName>, a: NodeName, b: NodeName)
  {
    exists i, j :: 0 <= i < j < |order| && order[i] == a && order[j] == b
  }

  /** An order the graph could run the nodes in: each declared node exactly
      once, each after every node it was declared to depend on. */
  predicate IsExecutionOrder(order: seq<NodeName>)
  {
    && |order| == |DeclaredNodes()|
    && (forall i, j :: 0 <= i < j < |order| ==> order[i] != order[j])
    && (forall n: NodeName :: n in order)
    && (forall k, dep :: 0 <= k < |DeclaredNodes()| && dep in DeclaredNodes()[k].deps ==>
          Before(order, dep, DeclaredNodes()[k].name))
  }

  /** The declaration order is an execution order, and it is the only one:
      mesh pass, post-effect pass, present. */
  lemma DeclarationOrderRuns()
    ensures IsExecutionOrder([MeshNode, PostEffectNode, PresentNode])
  {
    var order := [MeshNode, PostEffectNode, PresentNode];
    assert Before(order, MeshNode, PostEffectNode) by { assert order[0] == MeshNode && order[1] == PostEffectNode; }
    assert Before(order, PostEffectNode, PresentNode) by { assert order[1] == PostEffectNode && order[2] == PresentNode; }
    forall n: NodeName ensures n in order {
      match n
      case MeshNode => assert order[0] == n;
      case PostEffectNode => assert order[1] == n;
      case PresentNode => assert order[2] == n;
    }
  }

  lemma ExecutionOrderIsUnique(order: seq<NodeName>)
    requires IsExecutionOrder(order)
    ensures order == [MeshNode, PostEffectNode, PresentNode]
  {
    var nodes := DeclaredNodes();
    assert MeshNode in nodes[1].deps && PostEffectNode in nodes[2].deps;
    assert Before(order, MeshNode, PostEffectNode);
    assert Before(order, PostEffectNode, PresentNode);
    var i, j :| 0 <= i < j < |order| && order[i] == MeshNode && order[j] == PostEffectNode;
    var j', k :| 0 <= j' < k < |order| && order[j'] == PostEffectNode && order[k] == PresentNode;
    assert j == j';
    assert i == 0 && j == 1 && k == 2;
  }

  /** Every image a node reads is written by a node it was declared to
      depend on; so in any execution order the writer runs first. */
  lemma ReadsFollowWrites(k: nat, image: ImageName)
    requires k < |DeclaredNodes()| && Reads(DeclaredNodes()[k], image)
    ensures exists m :: 0 <= m < |DeclaredNodes()|
              && DeclaredNodes()[m].name in DeclaredNodes()[k].deps
              && Writes(DeclaredNodes()[m], image)
  {
    var nodes := DeclaredNodes();
    if k == 1 {
      assert nodes[0].name in nodes[1].deps && Writes(nodes[0], image);
    } else {
      assert k == 2 && nodes[1].name in nodes[2].deps && Writes(nodes[1], image);
    }
  }

  /** The HDR image is written by the mesh pass alone and read by the
      post-effect pass alone. */
  lemma HdrHandOff(k: nat)
    requires k < |DeclaredNodes()|
    ensures Writes(DeclaredNodes()[k], HdrImage) <==> DeclaredNodes()[k].name == MeshNode
    ensures Reads(DeclaredNodes()[k], HdrImage) <==> DeclaredNodes()[k].name == PostEffectNode
  {
  }

  /** The post-effect node is handed as many images as its pipeline
      declares it reads, that image is the HDR image, and the view its
      build creates has the HDR image's declared format. */
  lemma PostEffectInputAgrees(width: nat, height: nat, surface: Format, range: SubresourceRange)
    ensures |DeclaredNodes()[1].sampled| == |PostEffect.Images()|
    ensures DeclaredImages(width, height, surface)[1].name == DeclaredNodes()[1].sampled[0]
    ensures PostEffect.HdrView(range).format == DeclaredImages(width, height, surface)[1].format
  {
  }

  /** Every declared image covers the whole window with one layer, one
      sample and one mip level; the node declarations do not depend on the
      window size at all. */
  lemma ImagesAreWindowSized(width: nat, height: nat, surface: Format, k: nat)
    requires k < |DeclaredImages(width, height, surface)|
    ensures DeclaredImages(width, height, surface)[k].kind == D2Kind(width, height, 1, 1)
    ensures DeclaredImages(width, height, surface)[k].levels == 1
  {
  }
}
