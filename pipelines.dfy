/** The pipeline-state object `create_pipeline_state_raw` assembles after the
    input layout (lines 520-541): the topology code of the primitive, the
    depth-stencil info handed to the state builder, and the pipeline record. */
module PipelineStates {
  import opened Ints
  import opened Results
  import opened CoreTypes
  import opened ShaderPrograms
  import opened InputLayouts

  /** `gfx_core::Primitive`. */
  datatype Primitive = PointList | LineList | LineStrip | TriangleList | TriangleStrip

  /** `D3D_PRIMITIVE_TOPOLOGY` code for each primitive (`d3dcommon.h`):
      1 to 5 in the order of the enumeration. */
  function TopologyOf(p: Primitive): (code: u32)
    ensures 1 <= code <= 5
  {
    match p
    case PointList => 1
    case LineList => 2
    case LineStrip => 3
    case TriangleList => 4
    case TriangleStrip => 5
  }

  /** The primitive a topology code stands for, if any. */
  function PrimitiveOfTopology(code: u32): Option<Primitive> {
    if code == 1 then Some(PointList)
    else if code == 2 then Some(LineList)
    else if code == 3 then Some(LineStrip)
    else if code == 4 then Some(TriangleList)
    else if code == 5 then Some(TriangleStrip)
    else None
  }

  /** Each primitive's code maps back to it, so the codes are distinct. */
  lemma TopologyDecodes(p: Primitive)
    ensures PrimitiveOfTopology(TopologyOf(p)) == Some(p)
  {
  }

  /** The topology codes are exactly 1 to 5: each primitive's code maps
      back to it, and every code in range comes from a primitive. */
  lemma TopologyRoundTrip(p: Primitive, code: u32)
    ensures PrimitiveOfTopology(TopologyOf(p)) == Some(p)
    ensures PrimitiveOfTopology(code).Some? <==> 1 <= code <= 5
    ensures PrimitiveOfTopology(code).Some? ==> TopologyOf(PrimitiveOfTopology(code).value) == code
  {
    TopologyDecodes(p);
  }

  /** How a depth or stencil test is set up; its contents are passed on to
      the state builder unread. */
  datatype DepthInfo = DepthInfo(code: nat)

  datatype StencilSide = StencilSide(code: nat)

  /** `gfx_core::pso::DepthStencilInfo`. */
  datatype DepthStencilInfo = DepthStencilInfo(depth: Option<DepthInfo>, front: Option<StencilSide>, back: Option<StencilSide>)

  /** `dummy_dsi` of line 521: no depth test and no stencil sides. */
  const DUMMY_DSI: DepthStencilInfo := DepthStencilInfo(None, None, None)

  /** The rasterizer and colour-target descriptions, passed on unread. */
  datatype Rasterizer = Rasterizer(code: nat)

  datatype ColorTarget = ColorTarget(code: nat)

  /** `gfx_core::pso::Descriptor`, with the fields this factory reads. */
  datatype PsoDescriptor = PsoDescriptor(
    primitive: Primitive,
    rasterizer: Rasterizer,
    scissor: bool,
    attributes: seq<AttributeSlot>,
    depthStencil: Option<(Format, DepthStencilInfo)>,
    colorTargets: seq<ColorTarget>)

  /** The depth-stencil info handed to `state::make_depth_stencil`: the
      descriptor's own when it has a depth target, the dummy otherwise. */
  function DepthStencilChoice(ds: Option<(Format, DepthStencilInfo)>): (info: DepthStencilInfo)
    ensures ds.Some? ==> info == ds.value.1
    ensures ds.None? ==> info.depth.None? && info.front.None? && info.back.None?
  {
    match ds
    case Some((_, dsi)) => dsi
    case None => DUMMY_DSI
  }

  /** `state::make_rasterizer`, `state::make_depth_stencil` and
      `state::make_blend`, which create native state objects; they are
      not part of this model. */
  datatype StateBuilders = StateBuilders(
    makeRasterizer: (Rasterizer, bool) -> NativeObject,
    makeDepthStencil: DepthStencilInfo -> NativeObject,
    makeBlend: seq<ColorTarget> -> NativeObject)

  /** The backend's `Pipeline`. */
  datatype Pipeline = Pipeline(
    topology: u32,
    layout: NativeObject,
    attributes: seq<AttributeSlot>,
    program: Program,
    rasterizer: NativeObject,
    depthStencil: NativeObject,
    blend: NativeObject)

  /** The pipeline record of lines 520-540, for an input layout object. */
  function PipelineOf(desc: PsoDescriptor, layout: NativeObject, prog: Program, sb: StateBuilders): (p: Pipeline)
    ensures PrimitiveOfTopology(p.topology) == Some(desc.primitive)
    ensures p.layout == layout && p.program == prog && p.attributes == desc.attributes
    ensures p.depthStencil == sb.makeDepthStencil(DepthStencilChoice(desc.depthStencil))
    ensures p.rasterizer == sb.makeRasterizer(desc.rasterizer, desc.scissor)
    ensures p.blend == sb.makeBlend(desc.colorTargets)
  {
    TopologyDecodes(desc.primitive);
    Pipeline(
      TopologyOf(desc.primitive), layout, desc.attributes, prog,
      sb.makeRasterizer(desc.rasterizer, desc.scissor),
      sb.makeDepthStencil(DepthStencilChoice(desc.depthStencil)),
      sb.makeBlend(desc.colorTargets))
  }
}
