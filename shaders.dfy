/** Shaders and programs (`create_shader`, `create_program`): what a shader
    handle carries, in which order a program's reflection is gathered, and
    which native objects the program binds. */
module ShaderPrograms {
  import opened Ints
  import opened Results
  import opened CoreTypes

  /** `gfx_core::shade::Stage`. */
  datatype Stage = VertexStage | GeometryStage | PixelStage

  /** A native COM object (`ID3D11DeviceChild` and the like), by identity. */
  datatype NativeObject = NativeObject(id: nat)

  /** What `mirror::reflect_shader` extracts from shader byte code; its
      contents are not part of this model. */
  datatype Reflection = Reflection(code: nat)

  /** The backend's `Shader`: the native object, its reflection and the
      SipHash of its byte code. */
  datatype Shader = Shader(native: NativeObject, reflection: Reflection, codeHash: u64)

  /** `gfx_core::shade::CreateShaderError::CompilationFailed`, carrying the
      HRESULT that the source formats into its message. */
  datatype CreateShaderError = CompilationFailed(hr: HResult)

  /** `gfx_core::shade::AttributeVar`: the attribute's name and input slot. */
  datatype AttributeVar = AttributeVar(name: seq<u8>, slot: u8)

  /** The other reflected variables, by name and slot. */
  datatype ShaderVar = ShaderVar(name: seq<u8>, slot: u8)

  /** `gfx_core::shade::ProgramInfo`. */
  datatype ProgramInfo = ProgramInfo(
    vertexAttributes: seq<AttributeVar>,
    globals: seq<ShaderVar>,
    constantBuffers: seq<ShaderVar>,
    textures: seq<ShaderVar>,
    unordereds: seq<ShaderVar>,
    samplers: seq<ShaderVar>,
    outputs: seq<ShaderVar>,
    knowsOutputs: bool)

  /** The info `create_program` starts from (lines 413-422). */
  const EMPTY_PROGRAM_INFO: ProgramInfo := ProgramInfo([], [], [], [], [], [], [], true)

  /** `gfx_core::ShaderSet` with the shader handles already dereferenced. */
  datatype ShaderSet = SimpleSet(vs: Shader, ps: Shader) | GeometrySet(vs: Shader, gs: Shader, ps: Shader)

  /** The backend's `Program`; a null geometry shader is `None`. */
  datatype Program = Program(vs: NativeObject, gs: Option<NativeObject>, ps: NativeObject, vsHash: u64)

  /** `mirror::populate_info`, which adds one stage's reflection to the info. */
  type Populate = (ProgramInfo, Stage, Reflection) -> ProgramInfo

  /** The stages of a set in pipeline order, with their shaders. */
  function StagesOf(s: ShaderSet): (r: seq<(Stage, Shader)>)
    ensures |r| == (if s.SimpleSet? then 2 else 3)
    ensures r[0] == (VertexStage, s.vs) && r[|r| - 1] == (PixelStage, s.ps)
    ensures s.GeometrySet? ==> r[1] == (GeometryStage, s.gs)
  {
    match s
    case SimpleSet(vs, ps) => [(VertexStage, vs), (PixelStage, ps)]
    case GeometrySet(vs, gs, ps) => [(VertexStage, vs), (GeometryStage, gs), (PixelStage, ps)]
  }

  /** The info after each stage's reflection has been added, first stage first. */
  function PopulateAll(info: ProgramInfo, stages: seq<(Stage, Shader)>, populate: Populate): (r: ProgramInfo)
    ensures |stages| > 0 ==>
      var last := stages[|stages| - 1];
      r == populate(PopulateAll(info, stages[..|stages| - 1], populate), last.0, last.1.reflection)
    decreases |stages|
  {
    if |stages| == 0 then info
    else
      var next := populate(info, stages[0].0, stages[0].1.reflection);
      assert |stages| > 1 ==> stages[1..][..|stages| - 2] == stages[..|stages| - 1][1..];
      PopulateAll(next, stages[1..], populate)
  }

  /** The program info of a set: the vertex stage, then the geometry stage
      when there is one, then the pixel stage. */
  lemma ProgramInfoOrder(s: ShaderSet, populate: Populate)
    ensures s.SimpleSet? ==>
      PopulateAll(EMPTY_PROGRAM_INFO, StagesOf(s), populate)
        == populate(populate(EMPTY_PROGRAM_INFO, VertexStage, s.vs.reflection), PixelStage, s.ps.reflection)
    ensures s.GeometrySet? ==>
      PopulateAll(EMPTY_PROGRAM_INFO, StagesOf(s), populate)
        == populate(populate(populate(EMPTY_PROGRAM_INFO, VertexStage, s.vs.reflection),
                             GeometryStage, s.gs.reflection), PixelStage, s.ps.reflection)
  {
    var st := StagesOf(s);
    var i1 := populate(EMPTY_PROGRAM_INFO, VertexStage, s.vs.reflection);
    assert PopulateAll(EMPTY_PROGRAM_INFO, st, populate) == PopulateAll(i1, st[1..], populate);
    if s.GeometrySet? {
      var i2 := populate(i1, GeometryStage, s.gs.reflection);
      assert PopulateAll(i1, st[1..], populate) == PopulateAll(i2, st[2..], populate) by {
        assert st[1..][1..] == st[2..];
      }
      assert PopulateAll(i2, st[2..], populate) == PopulateAll(populate(i2, PixelStage, s.ps.reflection), [], populate) by {
        assert st[2..][1..] == [];
      }
    } else {
      assert PopulateAll(i1, st[1..], populate) == PopulateAll(populate(i1, PixelStage, s.ps.reflection), [], populate) by {
        assert st[1..][1..] == [];
      }
    }
  }

  /** The program `create_program` builds, as written: for a geometry set
      the geometry slot receives the vertex shader's object (line 445). */
  function ProgramOf(s: ShaderSet): (p: Program)
    ensures p.vs == s.vs.native && p.ps == s.ps.native && p.vsHash == s.vs.codeHash
    ensures p.gs.Some? <==> s.GeometrySet?
  {
    match s
    case SimpleSet(vs, ps) => Program(vs.native, None, ps.native, vs.codeHash)
    case GeometrySet(vs, gs, ps) => Program(vs.native, Some(vs.native), ps.native, vs.codeHash)
  }

  /** The program with each stage's own object in its slot. */
  function ProgramIntended(s: ShaderSet): (p: Program)
    ensures p.vs == s.vs.native && p.ps == s.ps.native && p.vsHash == s.vs.codeHash
    ensures p.gs.Some? <==> s.GeometrySet?
  {
    match s
    case SimpleSet(vs, ps) => Program(vs.native, None, ps.native, vs.codeHash)
    case GeometrySet(vs, gs, ps) => Program(vs.native, Some(gs.native), ps.native, vs.codeHash)
  }

  /** The native objects a program binds, in pipeline order. */
  function BoundObjects(p: Program): seq<NativeObject> {
    [p.vs] + (if p.gs.Some? then [p.gs.value] else []) + [p.ps]
  }

  /** The native objects of a set's shaders, in pipeline order. */
  function StageObjects(s: ShaderSet): (r: seq<NativeObject>)
    ensures |r| == |StagesOf(s)|
    ensures forall i :: 0 <= i < |r| ==> r[i] == StagesOf(s)[i].1.native
  {
    match s
    case SimpleSet(vs, ps) => [vs.native, ps.native]
    case GeometrySet(vs, gs, ps) => [vs.native, gs.native, ps.native]
  }

  /** As written, a program binds its set's shaders exactly when the set
      has no geometry stage or the geometry shader's object happens to be
      the vertex shader's. */
  lemma ProgramBindsStagesOnlyWithoutGeometry(s: ShaderSet)
    ensures BoundObjects(ProgramOf(s)) == StageObjects(s) <==> s.SimpleSet? || s.gs.native == s.vs.native
  {
    if s.GeometrySet? && BoundObjects(ProgramOf(s)) == StageObjects(s) {
      assert BoundObjects(ProgramOf(s))[1] == StageObjects(s)[1];
    }
  }

  /** A geometry set with three distinct shaders whose program, as written,
      binds the vertex shader in the geometry slot. */
  lemma GeometrySlotCounterexample()
    ensures var s := GeometrySet(Shader(NativeObject(1), Reflection(0), 7),
                                 Shader(NativeObject(2), Reflection(0), 8),
                                 Shader(NativeObject(3), Reflection(0), 9));
      && ProgramOf(s).gs == Some(NativeObject(1))
      && BoundObjects(ProgramOf(s)) != StageObjects(s)
  {
    var s := GeometrySet(Shader(NativeObject(1), Reflection(0), 7),
                         Shader(NativeObject(2), Reflection(0), 8),
                         Shader(NativeObject(3), Reflection(0), 9));
    assert BoundObjects(ProgramOf(s))[1] != StageObjects(s)[1];
  }

  /** The intended program binds every stage's own object, in order, and
      differs from the as-written one only in the geometry slot. */
  lemma ProgramIntendedBindsStages(s: ShaderSet)
    ensures BoundObjects(ProgramIntended(s)) == StageObjects(s)
    ensures ProgramIntended(s).gs.Some? ==> ProgramIntended(s).gs.value == s.gs.native
    ensures ProgramIntended(s) == ProgramOf(s) <==> s.SimpleSet? || s.gs.native == s.vs.native
  {
  }
}
