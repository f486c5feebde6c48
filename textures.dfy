/** Texture parameter selection (`Factory::create_texture_internal`,
    `TextureParam::to_sub_data` and the descriptor part of
    `create_texture_1d/2d/3d`): the format, the pitches of the initial data,
    the misc flags and the dimensionality path chosen for each kind. */
module TextureCreation {
  import opened Ints
  import opened Results
  import opened CoreTypes

  /** `gfx_core::tex::AaMode`. */
  datatype AaMode = Single | Multi(samples: u8) | Coverage(samples: u8, fragments: u8)

  /** `gfx_core::tex::Kind`: sizes are `u16`, layer counts `u16`. */
  datatype Kind =
    | D1(w: u16)
    | D1Array(w: u16, d: u16)
    | D2(w: u16, h: u16, aa: AaMode)
    | D2Array(w: u16, h: u16, d: u16, aa: AaMode)
    | D3(w: u16, h: u16, d: u16)
    | Cube(w: u16)
    | CubeArray(w: u16, d: u16)

  /** `gfx_core::tex::Descriptor`. */
  datatype TexDescriptor = TexDescriptor(kind: Kind, levels: u8, format: SurfaceType, bind: Bind, usage: Usage)

  /** The two variants of `gfx_core::tex::Error` this factory reports:
      `Error::Format(surface, channel)` and `Error::Kind`. */
  datatype TexError = TexFormat(surface: SurfaceType, channel: Option<ChannelType>) | TexKind

  /** What `Kind::get_level_dimensions` returns. */
  datatype Dimensions = Dimensions(w: u16, h: u16, d: u16, aa: AaMode)

  /** The bits of `D3D11_RESOURCE_MISC_FLAG` the factory sets. */
  datatype MiscFlag = GenerateMips | TextureCube

  /** `TextureParam`; `init` is the initial data, `None` for a null pointer. */
  datatype TextureParam = TextureParam(
    levels: u32,
    format: DxgiFormat,
    bytesPerTexel: u32,
    bind: set<NativeBind>,
    usage: NativeUsage,
    cpuAccess: CpuAccess,
    init: Option<seq<u8>>)

  /** `D3D11_SUBRESOURCE_DATA`. */
  datatype SubresourceData = SubresourceData(sysMem: Option<seq<u8>>, sysMemPitch: u32, sysMemSlicePitch: u32)

  /** `D3D11_TEXTURE1D_DESC`, `D3D11_TEXTURE2D_DESC` and `D3D11_TEXTURE3D_DESC`;
      the sample descriptor is kept as the `AaMode` that `map_anti_alias`
      translates. */
  datatype NativeTextureDesc =
    | Texture1DDesc(width: u16, mipLevels: u32, arraySize: u16, format: DxgiFormat,
                    usage: NativeUsage, bindFlags: set<NativeBind>, cpuAccessFlags: CpuAccess, miscFlags: set<MiscFlag>)
    | Texture2DDesc(width: u16, height: u16, mipLevels: u32, arraySize: u16, format: DxgiFormat, sampleDesc: AaMode,
                    usage: NativeUsage, bindFlags: set<NativeBind>, cpuAccessFlags: CpuAccess, miscFlags: set<MiscFlag>)
    | Texture3DDesc(width: u16, height: u16, depth: u16, mipLevels: u32, format: DxgiFormat,
                    usage: NativeUsage, bindFlags: set<NativeBind>, cpuAccessFlags: CpuAccess, miscFlags: set<MiscFlag>)

  /** One native texture creation call: the descriptor and, when the
      parameter carries initial data, the subresource data passed with it. */
  datatype TextureRequest = TextureRequest(desc: NativeTextureDesc, initialData: Option<SubresourceData>)

  /** Two 16-bit sizes multiply without overflowing 32 bits. */
  lemma {:induction false} SizeProductFits(w: u16, h: u16)
    ensures 0 <= w * h <= U32_MAX && Wrap32(w * h) == w * h
  {
    MulMonotone(w, 0, h);
    MulMonotone(w, h, U16_MAX);
    MulMonotone(U16_MAX, w, U16_MAX);
    assert w * U16_MAX == U16_MAX * w;
  }

  /** `w * h * bpt` wrapped in 32 bits is `h` rows of `w * bpt` bytes. */
  lemma {:induction false} SlicePitchIsRows(w: u16, h: u16, bpt: u32)
    ensures Wrap32(Wrap32(w * h) * bpt) == Wrap32(Wrap32(w * bpt) * h)
  {
    SizeProductFits(w, h);
    MulMonotone(w, 0, bpt);
    MulWrap32(w * bpt, h);
    MulRearrange(w, h, bpt);
  }

  /** `TextureParam::to_sub_data`: one row of `w` texels, and `h` rows per
      slice, in 32-bit arithmetic. */
  function ToSubData(tp: TextureParam, w: u16, h: u16): (r: SubresourceData)
    ensures r.sysMem == tp.init
    ensures r.sysMemPitch == Wrap32(w * tp.bytesPerTexel)
    ensures r.sysMemSlicePitch == Wrap32(r.sysMemPitch * h)
  {
    SlicePitchIsRows(w, h, tp.bytesPerTexel);
    SubresourceData(tp.init, Wrap32(w * tp.bytesPerTexel), Wrap32(Wrap32(w * h) * tp.bytesPerTexel))
  }

  /** The channel hint survives only in typed-format mode and when the
      texture is not bound as a depth-stencil target (lines 272-274). */
  function EffectiveHint(hint: Option<ChannelType>, useHint: bool, bind: Bind): (r: Option<ChannelType>)
    ensures r.Some? <==> hint.Some? && useHint && DepthStencil !in bind
    ensures r.Some? ==> r == hint
  {
    if !useHint || DepthStencil in bind then None else hint
  }

  /** Whether the format tables can translate the surface, typed by the
      channel when there is one. */
  predicate FormatMappable(surface: SurfaceType, channel: Option<ChannelType>, t: Tables) {
    match channel
    case Some(c) => t.mapFormat(Format(surface, c), true).Some?
    case None => t.mapSurface(surface).Some?
  }

  /** The DXGI format of the surface (lines 276-286), or the `Format` error
      carrying both inputs. */
  function ChooseFormat(surface: SurfaceType, channel: Option<ChannelType>, t: Tables): (r: Result<DxgiFormat, TexError>)
    ensures r.Err? <==> !FormatMappable(surface, channel, t)
    ensures r.Err? ==> r.error == TexFormat(surface, channel)
    ensures r.Ok? && channel.Some? ==> t.mapFormat(Format(surface, channel.value), true) == Some(r.value)
    ensures r.Ok? && channel.None? ==> t.mapSurface(surface) == Some(r.value)
  {
    match channel
    case Some(c) =>
      (match t.mapFormat(Format(surface, c), true)
       case Some(f) => Ok(f)
       case None => Err(TexFormat(surface, Some(c))))
    case None =>
      (match t.mapSurface(surface)
       case Some(f) => Ok(f)
       case None => Err(TexFormat(surface, None)))
  }

  /** The descriptor `create_texture_1d` builds. */
  function Texture1D(size: u16, layers: u16, tp: TextureParam, misc: set<MiscFlag>): (r: TextureRequest)
    ensures r.desc.Texture1DDesc? && r.desc.width == size && r.desc.arraySize == layers
    ensures r.desc.mipLevels == tp.levels && r.desc.format == tp.format && r.desc.miscFlags == misc
    ensures r.initialData.Some? <==> tp.init.Some?
    ensures r.initialData.Some? ==> r.initialData.value.sysMem == tp.init && r.initialData.value.sysMemSlicePitch == 0
  {
    TextureRequest(
      Texture1DDesc(size, tp.levels, layers, tp.format, tp.usage, tp.bind, tp.cpuAccess, misc),
      if tp.init.Some? then Some(ToSubData(tp, size, 0)) else None)
  }

  /** The descriptor `create_texture_2d` builds. */
  function Texture2D(w: u16, h: u16, layers: u16, aa: AaMode, tp: TextureParam, misc: set<MiscFlag>): (r: TextureRequest)
    ensures r.desc.Texture2DDesc? && r.desc.width == w && r.desc.height == h && r.desc.arraySize == layers
    ensures r.desc.sampleDesc == aa
    ensures r.desc.mipLevels == tp.levels && r.desc.format == tp.format && r.desc.miscFlags == misc
    ensures r.initialData.Some? <==> tp.init.Some?
    ensures r.initialData.Some? ==>
      r.initialData.value.sysMem == tp.init && r.initialData.value.sysMemSlicePitch == Wrap32(r.initialData.value.sysMemPitch * h)
  {
    TextureRequest(
      Texture2DDesc(w, h, tp.levels, layers, tp.format, aa, tp.usage, tp.bind, tp.cpuAccess, misc),
      if tp.init.Some? then Some(ToSubData(tp, w, h)) else None)
  }

  /** The descriptor `create_texture_3d` builds. */
  function Texture3D(w: u16, h: u16, d: u16, tp: TextureParam, misc: set<MiscFlag>): (r: TextureRequest)
    ensures r.desc.Texture3DDesc? && r.desc.width == w && r.desc.height == h && r.desc.depth == d
    ensures r.desc.mipLevels == tp.levels && r.desc.format == tp.format && r.desc.miscFlags == misc
    ensures r.initialData.Some? <==> tp.init.Some?
    ensures r.initialData.Some? ==>
      r.initialData.value.sysMem == tp.init && r.initialData.value.sysMemSlicePitch == Wrap32(r.initialData.value.sysMemPitch * h)
  {
    TextureRequest(
      Texture3DDesc(w, h, d, tp.levels, tp.format, tp.usage, tp.bind, tp.cpuAccess, misc),
      if tp.init.Some? then Some(ToSubData(tp, w, h)) else None)
  }

  /** The dispatch on the kind (lines 300-315). `6*d` is computed in the
      `u16` type of a layer count. */
  function KindRequest(kind: Kind, tp: TextureParam, misc: set<MiscFlag>): (r: TextureRequest)
    ensures r.desc.Texture1DDesc? <==> kind.D1? || kind.D1Array?
    ensures r.desc.Texture3DDesc? <==> kind.D3?
    ensures IsCube(kind) ==> TextureCube in r.desc.miscFlags && r.desc.sampleDesc == Single
    ensures !IsCube(kind) ==> r.desc.miscFlags == misc
    ensures r.initialData.Some? <==> tp.init.Some?
  {
    match kind
    case D1(w) => Texture1D(w, 1, tp, misc)
    case D1Array(w, d) => Texture1D(w, d, tp, misc)
    case D2(w, h, aa) => Texture2D(w, h, 1, aa, tp, misc)
    case D2Array(w, h, d, aa) => Texture2D(w, h, d, aa, tp, misc)
    case D3(w, h, d) => Texture3D(w, h, d, tp, misc)
    case Cube(w) => Texture2D(w, w, 6 * 1, Single, tp, misc + {TextureCube})
    case CubeArray(w, d) => Texture2D(w, w, Wrap16(6 * d), Single, tp, misc + {TextureCube})
  }

  /** The misc flags before the kind adds the cube flag (lines 296-299). */
  function MiscOf(initOpt: Option<(seq<u8>, bool)>): (m: set<MiscFlag>)
    ensures GenerateMips in m <==> initOpt.Some? && initOpt.value.1
    ensures TextureCube !in m
  {
    if initOpt.Some? && initOpt.value.1 then {GenerateMips} else {}
  }

  /** The native texture request for `desc`, or the format error reported
      before any native call. `useHint` is the factory's
      `use_texture_format_hint`; `initOpt` the initial data and whether
      mipmaps are to be generated. */
  function TexturePlan(desc: TexDescriptor, hint: Option<ChannelType>, initOpt: Option<(seq<u8>, bool)>, useHint: bool, t: Tables)
    : (r: Result<TextureRequest, TexError>)
    ensures r.Err? <==> !FormatMappable(desc.format, EffectiveHint(hint, useHint, desc.bind), t)
    ensures r.Err? ==> r.error == TexFormat(desc.format, EffectiveHint(hint, useHint, desc.bind))
    ensures r.Ok? ==>
      var channel := EffectiveHint(hint, useHint, desc.bind);
      && Some(r.value.desc.format) == (if channel.Some? then t.mapFormat(Format(desc.format, channel.value), true) else t.mapSurface(desc.format))
      && r.value.desc.mipLevels == desc.levels
      && r.value.desc.bindFlags == t.mapBind(desc.bind)
      && r.value.desc.usage == t.mapUsage(desc.usage).0
      && r.value.desc.cpuAccessFlags == t.mapUsage(desc.usage).1
      && (GenerateMips in r.value.desc.miscFlags <==> initOpt.Some? && initOpt.value.1)
      && (r.value.initialData.Some? <==> initOpt.Some?)
  {
    var channel := EffectiveHint(hint, useHint, desc.bind);
    match ChooseFormat(desc.format, channel, t)
    case Err(e) => Err(e)
    case Ok(format) => Ok(KindRequest(desc.kind, ParamOf(desc, format, initOpt, t), MiscOf(initOpt)))
  }

  /** The `TextureParam` of lines 275-295: `bytes_per_texel` is the
      surface's total bit count shifted right by three. */
  function ParamOf(desc: TexDescriptor, format: DxgiFormat, initOpt: Option<(seq<u8>, bool)>, t: Tables): (p: TextureParam)
    ensures 8 * p.bytesPerTexel <= t.totalBits(desc.format) < 8 * p.bytesPerTexel + 8
    ensures p.levels == desc.levels && p.format == format
    ensures p.init.Some? <==> initOpt.Some?
    ensures p.init.Some? ==> p.init.value == initOpt.value.0
  {
    TextureParam(
      desc.levels, format, t.totalBits(desc.format) / 8, t.mapBind(desc.bind),
      t.mapUsage(desc.usage).0, t.mapUsage(desc.usage).1,
      if initOpt.Some? then Some(initOpt.value.0) else None)
  }

  /** The number of array slices a kind allocates: six faces per cube,
      and none for a 3D texture. */
  function ArrayLayers(kind: Kind): nat {
    match kind
    case D1(_) => 1
    case D1Array(_, d) => d
    case D2(_, _, _) => 1
    case D2Array(_, _, d, _) => d
    case D3(_, _, _) => 0
    case Cube(_) => 6
    case CubeArray(_, d) => 6 * d
  }

  predicate IsCube(kind: Kind) {
    kind.Cube? || kind.CubeArray?
  }

  /** Each kind takes its own path: D1 kinds the 1D path, D3 the 3D path and
      the rest the 2D path; a 1D or 2D creation gets the kind's array size
      (in `u16`, so exact up to 10922 cubes), cube kinds are square,
      single-sampled and flagged as cubes, and the other 2D kinds keep their
      anti-aliasing mode. */
  lemma KindDispatch(kind: Kind, tp: TextureParam, misc: set<MiscFlag>)
    requires TextureCube !in misc
    ensures var d := KindRequest(kind, tp, misc).desc;
      && (d.Texture1DDesc? <==> kind.D1? || kind.D1Array?)
      && (d.Texture3DDesc? <==> kind.D3?)
      && (!d.Texture3DDesc? ==> d.arraySize == Wrap16(ArrayLayers(kind)))
      && (d.Texture3DDesc? ==> d.width == kind.w && d.height == kind.h && d.depth == kind.d)
      && d.width == kind.w
      && (IsCube(kind) ==> d.Texture2DDesc? && d.height == kind.w && d.sampleDesc == Single)
      && ((kind.D2? || kind.D2Array?) ==> d.Texture2DDesc? && d.height == kind.h && d.sampleDesc == kind.aa)
      && d.miscFlags == (if IsCube(kind) then misc + {TextureCube} else misc)
      && d.mipLevels == tp.levels && d.format == tp.format
  {
  }

  /** Cube kinds allocate a multiple of six slices while the count fits. */
  lemma CubeLayersAreFaces(kind: Kind, tp: TextureParam, misc: set<MiscFlag>)
    requires IsCube(kind) && ArrayLayers(kind) <= U16_MAX
    ensures KindRequest(kind, tp, misc).desc.arraySize % 6 == 0
    ensures KindRequest(kind, tp, misc).desc.arraySize == 6 * (if kind.CubeArray? then kind.d else 1)
  {
  }

  /** A row of at most 65535 texels of at most 31 bytes fits in 32 bits. */
  lemma {:induction false} RowPitchFits(w: u16, bpt: nat)
    requires bpt <= U8_MAX / 8
    ensures 0 <= w * bpt <= U32_MAX && Wrap32(w * bpt) == w * bpt
  {
    MulMonotone(w, 0, bpt);
    MulMonotone(w, bpt, U8_MAX / 8);
    MulMonotone(U8_MAX / 8, w, U16_MAX);
    assert w * (U8_MAX / 8) == (U8_MAX / 8) * w;
  }

  /** Initial data travels with every path, with the pitches of the
      kind's base width and height. */
  lemma KindRequestData(kind: Kind, tp: TextureParam, misc: set<MiscFlag>)
    requires tp.init.Some?
    ensures var req := KindRequest(kind, tp, misc);
      && req.initialData.Some?
      && req.initialData.value.sysMem == tp.init
      && req.initialData.value.sysMemPitch == Wrap32(kind.w * tp.bytesPerTexel)
      && (req.desc.Texture1DDesc? ==> req.initialData.value.sysMemSlicePitch == 0)
      && (!req.desc.Texture1DDesc? ==>
            req.initialData.value.sysMemSlicePitch == Wrap32(req.initialData.value.sysMemPitch * req.desc.height))
  {
  }

  /** The initial data's pitches follow from the surface's bit width:
      `bytes_per_texel = total_bits >> 3`, one row of the base width, the
      height's worth of rows per slice, and a 1D texture has a slice pitch
      of zero. */
  lemma InitialDataPitches(desc: TexDescriptor, hint: Option<ChannelType>, data: seq<u8>, mipmap: bool, useHint: bool, t: Tables)
    requires TexturePlan(desc, hint, Some((data, mipmap)), useHint, t).Ok?
    ensures var req := TexturePlan(desc, hint, Some((data, mipmap)), useHint, t).value;
      && req.initialData.Some?
      && req.initialData.value.sysMem == Some(data)
      && req.initialData.value.sysMemPitch == desc.kind.w * (t.totalBits(desc.format) / 8)
      && (req.desc.Texture1DDesc? ==> req.initialData.value.sysMemSlicePitch == 0)
      && (!req.desc.Texture1DDesc? ==>
            req.initialData.value.sysMemSlicePitch == Wrap32(req.initialData.value.sysMemPitch * req.desc.height))
  {
    var initOpt := Some((data, mipmap));
    var channel := EffectiveHint(hint, useHint, desc.bind);
    var tp := ParamOf(desc, ChooseFormat(desc.format, channel, t).value, initOpt, t);
    assert TexturePlan(desc, hint, initOpt, useHint, t).value == KindRequest(desc.kind, tp, MiscOf(initOpt));
    KindRequestData(desc.kind, tp, MiscOf(initOpt));
    RowPitchFits(desc.kind.w, tp.bytesPerTexel);
  }

  /** The descriptor of a planned texture follows the kind's path: the 1D
      path for D1 kinds, the 3D path for D3, and otherwise the 2D path with
      the kind's array size; the cube flag is set exactly for cube kinds,
      which are square and single-sampled. */
  lemma TexturePlanDispatch(desc: TexDescriptor, hint: Option<ChannelType>, initOpt: Option<(seq<u8>, bool)>, useHint: bool, t: Tables)
    requires TexturePlan(desc, hint, initOpt, useHint, t).Ok?
    ensures var d := TexturePlan(desc, hint, initOpt, useHint, t).value.desc;
      && (d.Texture1DDesc? <==> desc.kind.D1? || desc.kind.D1Array?)
      && (d.Texture3DDesc? <==> desc.kind.D3?)
      && (!d.Texture3DDesc? ==> d.arraySize == Wrap16(ArrayLayers(desc.kind)))
      && (d.Texture3DDesc? ==> d.width == desc.kind.w && d.height == desc.kind.h && d.depth == desc.kind.d)
      && (TextureCube in d.miscFlags <==> IsCube(desc.kind))
      && (IsCube(desc.kind) ==> d.Texture2DDesc? && d.width == d.height == desc.kind.w && d.sampleDesc == Single)
      && ((desc.kind.D2? || desc.kind.D2Array?) ==> d.Texture2DDesc? && d.sampleDesc == desc.kind.aa)
  {
    var channel := EffectiveHint(hint, useHint, desc.bind);
    var tp := ParamOf(desc, ChooseFormat(desc.format, channel, t).value, initOpt, t);
    assert TexturePlan(desc, hint, initOpt, useHint, t).value == KindRequest(desc.kind, tp, MiscOf(initOpt));
    KindDispatch(desc.kind, tp, MiscOf(initOpt));
  }
}
