/** The Direct3D 11 `Factory` (`src/backend/dx11/src/factory.rs`): the
    device it calls, the shared handle store it registers every created
    object in, and its own vertex-shader cache, which `create_shader` fills
    and `create_pipeline_state_raw` reads. The decisions each method takes
    are the functions of the other modules; the methods here run them in
    the source's order around the device calls. */
module Factory {
  import opened Ints
  import opened Results
  import opened CoreTypes
  import opened BufferCreation
  import opened TextureCreation
  import opened ViewResolution
  import opened ShaderPrograms
  import opened InputLayouts
  import opened PipelineStates
  import opened Samplers
  import opened Updates
  import opened Handles

  /** The device's `Create*` calls: each returns the HRESULT and the object
      it wrote to its out-pointer. */
  datatype Device = Device(
    createBuffer: (NativeBufferDesc, Option<seq<u8>>) -> (HResult, NativeObject),
    createTexture: TextureRequest -> (HResult, NativeObject),
    createShader: (Stage, seq<u8>) -> (HResult, NativeObject),
    createInputLayout: (InputLayout, seq<u8>) -> (HResult, NativeObject),
    createSrv: (NativeObject, SrvDesc) -> (HResult, NativeObject),
    createRtv: (NativeObject, RtvDesc) -> (HResult, NativeObject),
    createDsv: (NativeObject, DsvDesc) -> (HResult, NativeObject),
    createSampler: SamplerDesc -> (HResult, NativeObject))

  /** The code outside this file the factory calls: the format tables, the
      SipHash of shader code, shader reflection, `Kind::get_level_dimensions`,
      the state builders, `map_dsv_flags` and the sampler tables. */
  datatype Env = Env(
    tables: Tables,
    hash: seq<u8> -> u64,
    reflect: seq<u8> -> Reflection,
    populate: Populate,
    levelDimensions: (Kind, u8) -> Dimensions,
    states: StateBuilders,
    mapDsvFlags: set<DsvFlag> -> u32,
    samplerTables: SamplerTables)

  /** `core::pso::CreationError`. */
  datatype CreationError = CreationError

  /** `f::BufferUpdateError`; the buffer update never reports one. */
  datatype BufferUpdateError = OutOfBounds

  class Factory {
    const device: Device
    const env: Env
    const share: Registry
    /** `vs_cache`: vertex shader code by the hash of its bytes. */
    var vsCache: map<u64, seq<u8>>
    /** `use_texture_format_hint`: typed texture formats from the channel hint. */
    const useTextureFormatHint: bool

    /** Every cached code is stored under its own hash. */
    predicate CacheKeysAreHashes()
      reads this
    {
      forall h | h in vsCache :: env.hash(vsCache[h]) == h
    }

    /** `Factory::new`: an empty cache and untyped texture formats. */
    constructor(device: Device, env: Env, share: Registry)
      ensures this.device == device && this.env == env && this.share == share
      ensures vsCache == map[] && !useTextureFormatHint
      ensures CacheKeysAreHashes()
    {
      this.device := device;
      this.env := env;
      this.share := share;
      vsCache := map[];
      useTextureFormatHint := false;
    }

    /** `Clone`: a new factory on the same device and store; the vertex
        shader cache is not copied. */
    method Clone() returns (f: Factory)
      ensures fresh(f)
      ensures f.device == device && f.env == env && f.share == share
      ensures f.vsCache == map[] && !f.useTextureFormatHint
      ensures f.CacheKeysAreHashes()
    {
      f := new Factory(device, env, share);
    }

    /** `create_buffer_internal`: the checks of `BufferPlan`, then the
        device call; a device failure is `Other`. */
    method CreateBufferInternal(info: BufferInfo, rawData: Option<seq<u8>>) returns (r: Result<RawBuffer, BufferError>)
      requires SizeRoundable(info)
      modifies share
      ensures var plan := BufferPlan(info, env.tables);
        && (plan.Err? ==> r == Err(plan.error))
        && (plan.Ok? && !Succeeded(device.createBuffer(plan.value, rawData).0) ==> r == Err(Other))
        && (plan.Ok? && Succeeded(device.createBuffer(plan.value, rawData).0) ==>
              r == Ok(RawBuffer(device.createBuffer(plan.value, rawData).1, info)))
      ensures r.Ok? ==> share.entries == old(share.entries) + [BufferEntry(r.value)]
      ensures r.Err? ==> share.entries == old(share.entries)
    {
      var plan := BufferPlan(info, env.tables);
      if plan.Err? {
        return Err(plan.error);
      }
      var (hr, native) := device.createBuffer(plan.value, rawData);
      if Succeeded(hr) {
        r := Ok(RawBuffer(native, info));
        var _ := share.Register(BufferEntry(r.value));
      } else {
        r := Err(Other);
      }
    }

    /** `create_buffer_raw`: a buffer without initial data. */
    method CreateBufferRaw(info: BufferInfo) returns (r: Result<RawBuffer, BufferError>)
      requires SizeRoundable(info)
      modifies share
      ensures var plan := BufferPlan(info, env.tables);
        && (plan.Err? ==> r == Err(plan.error))
        && (plan.Ok? && !Succeeded(device.createBuffer(plan.value, None).0) ==> r == Err(Other))
        && (plan.Ok? && Succeeded(device.createBuffer(plan.value, None).0) ==>
              r == Ok(RawBuffer(device.createBuffer(plan.value, None).1, info)))
      ensures r.Ok? ==> r.value.info == info && share.entries == old(share.entries) + [BufferEntry(r.value)]
      ensures r.Err? ==> share.entries == old(share.entries)
    {
      r := CreateBufferInternal(info, None);
    }

    /** `create_buffer_const_raw`: an immutable buffer as large as `data`,
        created with it as its contents. */
    method CreateBufferConstRaw(data: seq<u8>, stride: usize, role: BufferRole, bind: Bind)
      returns (r: Result<RawBuffer, BufferError>)
      requires |data| <= USIZE_MAX
      requires SizeRoundable(BufferInfo(role, Const, bind, |data|, stride))
      modifies share
      ensures var info := BufferInfo(role, Const, bind, |data|, stride);
        var plan := BufferPlan(info, env.tables);
        && (plan.Err? ==> r == Err(plan.error))
        && (plan.Ok? && !Succeeded(device.createBuffer(plan.value, Some(data)).0) ==> r == Err(Other))
        && (plan.Ok? && Succeeded(device.createBuffer(plan.value, Some(data)).0) ==>
              r == Ok(RawBuffer(device.createBuffer(plan.value, Some(data)).1, info)))
        && (r.Ok? ==> r.value.info == info)
      ensures r.Ok? ==> share.entries == old(share.entries) + [BufferEntry(r.value)]
      ensures r.Err? ==> share.entries == old(share.entries)
    {
      var info := BufferInfo(role, Const, bind, |data|, stride);
      r := CreateBufferInternal(info, Some(data));
    }

    /** `create_texture_internal`: the format and parameters of
        `TexturePlan`, then the device call of the kind's path; a device
        failure is `Error::Kind`. */
    method CreateTextureInternal(desc: TexDescriptor, hint: Option<ChannelType>, initOpt: Option<(seq<u8>, bool)>)
      returns (r: Result<RawTexture, TexError>)
      modifies share
      ensures var plan := TexturePlan(desc, hint, initOpt, useTextureFormatHint, env.tables);
        && (plan.Err? ==> r == Err(plan.error))
        && (plan.Ok? && !Succeeded(device.createTexture(plan.value).0) ==> r == Err(TexKind))
        && (plan.Ok? && Succeeded(device.createTexture(plan.value).0) ==>
              r == Ok(RawTexture(device.createTexture(plan.value).1, desc)))
      ensures r.Ok? ==> share.entries == old(share.entries) + [TextureEntry(r.value)]
      ensures r.Err? ==> share.entries == old(share.entries)
    {
      var plan := TexturePlan(desc, hint, initOpt, useTextureFormatHint, env.tables);
      if plan.Err? {
        return Err(plan.error);
      }
      var (hr, native) := device.createTexture(plan.value);
      if Succeeded(hr) {
        r := Ok(RawTexture(native, desc));
        var _ := share.Register(TextureEntry(r.value));
      } else {
        r := Err(TexKind);
      }
    }

    /** `create_texture_raw`: a texture without initial data. */
    method CreateTextureRaw(desc: TexDescriptor, hint: Option<ChannelType>) returns (r: Result<RawTexture, TexError>)
      modifies share
      ensures var plan := TexturePlan(desc, hint, None, useTextureFormatHint, env.tables);
        && (plan.Err? ==> r == Err(plan.error))
        && (plan.Ok? ==> plan.value.initialData.None?)
        && (plan.Ok? && !Succeeded(device.createTexture(plan.value).0) ==> r == Err(TexKind))
        && (plan.Ok? && Succeeded(device.createTexture(plan.value).0) ==>
              r == Ok(RawTexture(device.createTexture(plan.value).1, desc)))
      ensures r.Ok? ==> r.value.desc == desc && share.entries == old(share.entries) + [TextureEntry(r.value)]
      ensures r.Err? ==> share.entries == old(share.entries)
    {
      r := CreateTextureInternal(desc, hint, None);
    }

    /** `create_texture_with_data`: the channel is passed as the hint and
        the data as the first level's contents. */
    method CreateTextureWithData(desc: TexDescriptor, channel: ChannelType, data: seq<u8>, mipmap: bool)
      returns (r: Result<RawTexture, TexError>)
      modifies share
      ensures var plan := TexturePlan(desc, Some(channel), Some((data, mipmap)), useTextureFormatHint, env.tables);
        && (plan.Err? ==> r == Err(plan.error))
        && (plan.Ok? ==> plan.value.initialData.Some? && plan.value.initialData.value.sysMem == Some(data))
        && (plan.Ok? && !Succeeded(device.createTexture(plan.value).0) ==> r == Err(TexKind))
        && (plan.Ok? && Succeeded(device.createTexture(plan.value).0) ==>
              r == Ok(RawTexture(device.createTexture(plan.value).1, desc)))
      ensures r.Ok? ==> r.value.desc == desc && share.entries == old(share.entries) + [TextureEntry(r.value)]
      ensures r.Err? ==> share.entries == old(share.entries)
    {
      r := CreateTextureInternal(desc, Some(channel), Some((data, mipmap)));
      ghost var plan := TexturePlan(desc, Some(channel), Some((data, mipmap)), useTextureFormatHint, env.tables);
      if plan.Ok? {
        InitialDataPitches(desc, Some(channel), data, mipmap, useTextureFormatHint, env.tables);
      }
    }

    /** `create_shader`: on success the shader carries the reflection and
        the hash of its code, a vertex shader's code is cached under that
        hash, and the shader is registered; a failed compilation changes
        nothing and reports the HRESULT. */
    method CreateShader(stage: Stage, code: seq<u8>) returns (r: Result<Shader, CreateShaderError>)
      modifies this, share
      ensures r.Ok? <==> Succeeded(device.createShader(stage, code).0)
      ensures r.Err? ==> r.error == CompilationFailed(device.createShader(stage, code).0)
      ensures r.Ok? ==> r.value == Shader(device.createShader(stage, code).1, env.reflect(code), env.hash(code))
      ensures r.Ok? && stage == VertexStage ==> vsCache == old(vsCache)[env.hash(code) := code]
      ensures !(r.Ok? && stage == VertexStage) ==> vsCache == old(vsCache)
      ensures r.Ok? ==> share.entries == old(share.entries) + [ShaderEntry(r.value)]
      ensures r.Err? ==> share.entries == old(share.entries)
      ensures old(CacheKeysAreHashes()) ==> CacheKeysAreHashes()
    {
      var (hr, native) := device.createShader(stage, code);
      if Succeeded(hr) {
        var reflection := env.reflect(code);
        var hash := env.hash(code);
        if stage == VertexStage {
          vsCache := vsCache[hash := code];
        }
        var shader := Shader(native, reflection, hash);
        var _ := share.Register(ShaderEntry(shader));
        r := Ok(shader);
      } else {
        r := Err(CompilationFailed(hr));
      }
    }

    /** `create_program`: the info is filled stage by stage, vertex first
        and pixel last, and the program records the vertex shader's hash.
        The program is the one the source builds (`ProgramOf`), whose
        geometry slot holds the vertex shader's object; the creation never
        fails. */
    method CreateProgram(s: ShaderSet) returns (p: ProgramHandle)
      modifies share
      ensures p.info == PopulateAll(EMPTY_PROGRAM_INFO, StagesOf(s), env.populate)
      ensures p.program == ProgramOf(s) && p.program.vsHash == s.vs.codeHash
      ensures share.entries == old(share.entries) + [ProgramEntry(p)]
    {
      var info := EMPTY_PROGRAM_INFO;
      var prog;
      match s {
        case SimpleSet(vs, ps) =>
          info := env.populate(info, VertexStage, vs.reflection);
          info := env.populate(info, PixelStage, ps.reflection);
          prog := Program(vs.native, None, ps.native, vs.codeHash);
        case GeometrySet(vs, gs, ps) =>
          info := env.populate(info, VertexStage, vs.reflection);
          info := env.populate(info, GeometryStage, gs.reflection);
          info := env.populate(info, PixelStage, ps.reflection);
          prog := Program(vs.native, Some(vs.native), ps.native, vs.codeHash);
      }
      ProgramInfoOrder(s, env.populate);
      p := ProgramHandle(prog, info);
      var _ := share.Register(ProgramEntry(p));
    }

    /** `create_pipeline_state_raw`: the input layout is assembled and
        validated first, then the vertex shader code is looked up by the
        program's hash, then the native input layout is created from both;
        only then are the pipeline's states built and the pipeline
        registered. While the cache keeps every code under its own hash,
        the code the layout is checked against is the code whose hash the
        program records. */
    method CreatePipelineStateRaw(program: ProgramHandle, desc: PsoDescriptor) returns (r: Result<PipelineHandle, CreationError>)
      requires NamesFit(program.info.vertexAttributes, desc.attributes)
      modifies share
      ensures var spec := LayoutSpec(program.info.vertexAttributes, desc.attributes, env.tables.mapFormat);
        var hash := program.program.vsHash;
        && (spec.None? ==> r.Err?)
        && (spec.Some? && hash !in vsCache ==> r.Err?)
        && (spec.Some? && hash in vsCache ==>
              var (hr, layout) := device.createInputLayout(spec.value, vsCache[hash]);
              && (r.Ok? <==> Succeeded(hr))
              && (r.Ok? ==> r.value == PipelineHandle(PipelineOf(desc, layout, program.program, env.states), program))
              && (CacheKeysAreHashes() ==> env.hash(vsCache[hash]) == hash))
      ensures r.Ok? ==> share.entries == old(share.entries) + [PipelineEntry(r.value)]
      ensures r.Err? ==> share.entries == old(share.entries)
    {
      var layout := BuildInputLayout(program.info.vertexAttributes, desc.attributes, env.tables.mapFormat);
      if layout.None? {
        return Err(CreationError);
      }
      var prog := program.program;
      if prog.vsHash !in vsCache {
        return Err(CreationError);
      }
      var vsBin := vsCache[prog.vsHash];
      var (hr, vertexLayout) := device.createInputLayout(layout.value, vsBin);
      if !Succeeded(hr) {
        return Err(CreationError);
      }
      var pso := PipelineOf(desc, vertexLayout, prog, env.states);
      r := Ok(PipelineHandle(pso, program));
      var _ := share.Register(PipelineEntry(r.value));
    }

    /** `view_buffer_as_shader_resource_raw`: not supported. */
    method ViewBufferAsShaderResourceRaw(hbuf: RawBuffer) returns (r: Result<SrvHandle, ResourceViewError>)
      ensures r == Err(ResourceUnsupported)
    {
      r := Err(ResourceUnsupported);
    }

    /** `view_buffer_as_unordered_access_raw`: not supported. */
    method ViewBufferAsUnorderedAccessRaw(hbuf: RawBuffer) returns (r: Result<UavHandle, ResourceViewError>)
      ensures r == Err(ResourceUnsupported)
    {
      r := Err(ResourceUnsupported);
    }

    /** `view_texture_as_unordered_access_raw`: not supported. */
    method ViewTextureAsUnorderedAccessRaw(htex: RawTexture) returns (r: Result<UavHandle, ResourceViewError>)
      ensures r == Err(ResourceUnsupported)
    {
      r := Err(ResourceUnsupported);
    }

    /** `view_texture_as_shader_resource_raw`: the descriptor of `SrvView`,
        then the device call, whose failure is `Unsupported`. */
    method ViewTextureAsShaderResourceRaw(htex: RawTexture, desc: ResourceDesc) returns (r: Result<SrvHandle, ResourceViewError>)
      requires SrvLevelsOrdered(htex.desc.kind, htex.desc.format, desc, env.tables.mapFormat)
      modifies share
      ensures var view := SrvView(htex.desc.kind, htex.desc.format, desc, env.tables.mapFormat);
        && (view.Err? ==> r == Err(view.error))
        && (view.Ok? && !Succeeded(device.createSrv(htex.native, view.value).0) ==> r == Err(ResourceUnsupported))
        && (view.Ok? && Succeeded(device.createSrv(htex.native, view.value).0) ==>
              r == Ok(SrvHandle(device.createSrv(htex.native, view.value).1, htex)))
      ensures r.Ok? ==> share.entries == old(share.entries) + [SrvEntry(r.value)]
      ensures r.Err? ==> share.entries == old(share.entries)
    {
      var view := SrvView(htex.desc.kind, htex.desc.format, desc, env.tables.mapFormat);
      if view.Err? {
        return Err(view.error);
      }
      var (hr, rawView) := device.createSrv(htex.native, view.value);
      if !Succeeded(hr) {
        return Err(ResourceUnsupported);
      }
      r := Ok(SrvHandle(rawView, htex));
      var _ := share.Register(SrvEntry(r.value));
    }

    /** `view_texture_as_render_target_raw`: the dimension and addressing
        of the table as written (`RtvView`), the typed format, the device call (failure is
        `Unsupported`), and the dimensions of the viewed level. */
    method ViewTextureAsRenderTargetRaw(htex: RawTexture, desc: RenderDesc) returns (r: Result<RtvHandle, TargetViewError>)
      modifies share
      ensures var view := RtvView(htex.desc.kind, htex.desc.format, desc, env.tables.mapFormat);
        && (view.Err? ==> r == Err(view.error))
        && (view.Ok? && !Succeeded(device.createRtv(htex.native, view.value).0) ==> r == Err(TargetUnsupported))
        && (view.Ok? && Succeeded(device.createRtv(htex.native, view.value).0) ==>
              r == Ok(RtvHandle(device.createRtv(htex.native, view.value).1, htex, env.levelDimensions(htex.desc.kind, desc.level))))
      ensures r.Ok? ==> share.entries == old(share.entries) + [RtvEntry(r.value)]
      ensures r.Err? ==> share.entries == old(share.entries)
    {
      var view := RtvView(htex.desc.kind, htex.desc.format, desc, env.tables.mapFormat);
      if view.Err? {
        return Err(view.error);
      }
      var (hr, rawView) := device.createRtv(htex.native, view.value);
      if !Succeeded(hr) {
        return Err(TargetUnsupported);
      }
      var size := env.levelDimensions(htex.desc.kind, desc.level);
      r := Ok(RtvHandle(rawView, htex, size));
      var _ := share.Register(RtvEntry(r.value));
    }

    /** `view_texture_as_depth_stencil_raw`: as for a render target, with
        the depth-stencil table as written (`DsvView`), the fixed channel
        and the view flags. */
    method ViewTextureAsDepthStencilRaw(htex: RawTexture, desc: DepthStencilDesc) returns (r: Result<DsvHandle, TargetViewError>)
      modifies share
      ensures var view := DsvView(htex.desc.kind, htex.desc.format, desc, env.tables.mapFormat, env.mapDsvFlags);
        && (view.Err? ==> r == Err(view.error))
        && (view.Ok? && !Succeeded(device.createDsv(htex.native, view.value).0) ==> r == Err(TargetUnsupported))
        && (view.Ok? && Succeeded(device.createDsv(htex.native, view.value).0) ==>
              r == Ok(DsvHandle(device.createDsv(htex.native, view.value).1, htex, env.levelDimensions(htex.desc.kind, desc.level))))
      ensures r.Ok? ==> share.entries == old(share.entries) + [DsvEntry(r.value)]
      ensures r.Err? ==> share.entries == old(share.entries)
    {
      var view := DsvView(htex.desc.kind, htex.desc.format, desc, env.tables.mapFormat, env.mapDsvFlags);
      if view.Err? {
        return Err(view.error);
      }
      var (hr, rawView) := device.createDsv(htex.native, view.value);
      if !Succeeded(hr) {
        return Err(TargetUnsupported);
      }
      var dim := env.levelDimensions(htex.desc.kind, desc.level);
      r := Ok(DsvHandle(rawView, htex, dim));
      var _ := share.Register(DsvEntry(r.value));
    }

    /** `create_sampler`: the descriptor of `SamplerDescOf`; the device call
        must succeed, since the source has no error path for it. */
    method CreateSampler(info: SamplerInfo) returns (s: SamplerHandle)
      requires Succeeded(device.createSampler(SamplerDescOf(info, env.samplerTables)).0)
      modifies share
      ensures s == SamplerHandle(device.createSampler(SamplerDescOf(info, env.samplerTables)).1, info)
      ensures share.entries == old(share.entries) + [SamplerEntry(s)]
    {
      var nativeDesc := SamplerDescOf(info, env.samplerTables);
      var (hr, rawSampler) := device.createSampler(nativeDesc);
      s := SamplerHandle(rawSampler, info);
      var _ := share.Register(SamplerEntry(s));
    }

    /** `update_buffer_raw`: computes the destination box of the data and
        reports success; the update itself is not issued. */
    method UpdateBufferRaw(buffer: RawBuffer, data: seq<u8>, offsetBytes: usize) returns (r: Result<(), BufferUpdateError>)
      requires |data| <= USIZE_MAX
      ensures r == Ok(())
    {
      var dstBox := BufferUpdateBox(offsetBytes, |data|);
      r := Ok(());
    }

    /** `update_texture_raw`: computes the pitches, the destination box and
        the subresource of the region and reports success; the update
        itself is not issued. */
    method UpdateTextureRaw(texture: RawTexture, image: RawImageInfo, data: seq<u8>, face: Option<CubeFace>)
      returns (r: Result<(), TexError>)
      ensures r == Ok(())
    {
      var dims := env.levelDimensions(texture.desc.kind, image.mipmap);
      var update := TextureUpdateOf(dims, texture.desc.levels, image, face, env.tables.totalBits);
      r := Ok(());
    }
  }

  /** The join through the cache: a pipeline for a program over a vertex
      shader this factory has just created finds that shader's code, so
      its creation fails only on the layout or in the device. */
  method ShaderProgramPipeline(f: Factory, code: seq<u8>, ps: Shader, desc: PsoDescriptor)
    returns (r: Result<PipelineHandle, CreationError>)
    requires Succeeded(f.device.createShader(VertexStage, code).0)
    requires var vs := Shader(f.device.createShader(VertexStage, code).1, f.env.reflect(code), f.env.hash(code));
      NamesFit(PopulateAll(EMPTY_PROGRAM_INFO, StagesOf(SimpleSet(vs, ps)), f.env.populate).vertexAttributes, desc.attributes)
    modifies f, f.share
    ensures var vs := Shader(f.device.createShader(VertexStage, code).1, f.env.reflect(code), f.env.hash(code));
      var info := PopulateAll(EMPTY_PROGRAM_INFO, StagesOf(SimpleSet(vs, ps)), f.env.populate);
      var spec := LayoutSpec(info.vertexAttributes, desc.attributes, f.env.tables.mapFormat);
      && vs.codeHash in f.vsCache && f.vsCache[vs.codeHash] == code
      && (r.Ok? <==> spec.Some? && Succeeded(f.device.createInputLayout(spec.value, code).0))
    ensures old(f.CacheKeysAreHashes()) ==> f.CacheKeysAreHashes()
  {
    var vs := f.CreateShader(VertexStage, code);
    var p := f.CreateProgram(SimpleSet(vs.value, ps));
    r := f.CreatePipelineStateRaw(p, desc);
  }
}
