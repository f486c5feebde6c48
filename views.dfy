/** View resolution (`view_texture_as_shader_resource_raw`,
    `view_texture_as_render_target_raw`, `view_texture_as_depth_stencil_raw`):
    from a texture's kind and the view descriptor's layer and level to the
    native view dimension and its addressing fields, and only then the
    format. The match tables are transcribed arm by arm; the addressing
    fields are the values the source writes into the view union. */
module ViewResolution {
  import opened Ints
  import opened Results
  import opened CoreTypes
  import opened TextureCreation

  // ---------------------------------------------------------------------
  // Shader-resource views

  /** `D3D11_SRV_DIMENSION`, restricted to the texture dimensions. */
  datatype SrvDimension =
    | SrvTexture1D | SrvTexture1DArray | SrvTexture2D | SrvTexture2DMS | SrvTexture2DArray
    | SrvTexture2DMSArray | SrvTexture3D | SrvTextureCube | SrvTextureCubeArray

  /** The four words of the `D3D11_SHADER_RESOURCE_VIEW_DESC` union. */
  datatype Addr4 = Addr4(u0: u32, u1: u32, u2: u32, u3: u32)

  /** `gfx_core::tex::ResourceDesc` (the swizzle is not read here). */
  datatype ResourceDesc = ResourceDesc(channel: ChannelType, layer: Option<u16>, min: u8, max: u8)

  /** `D3D11_SHADER_RESOURCE_VIEW_DESC`. */
  datatype SrvDesc = SrvDesc(format: DxgiFormat, viewDimension: SrvDimension, u: Addr4)

  /** The two variants of `gfx_core::factory::ResourceViewError` used here:
      `Channel(channel)` and `Unsupported`. */
  datatype ResourceViewError = ResourceChannel(channel: ChannelType) | ResourceUnsupported

  /** `(dim, layers, has_levels)` of lines 571-590: a function of the kind. */
  datatype SrvShape = SrvShape(dim: SrvDimension, layers: u16, hasLevels: bool)

  function SrvShapeOf(kind: Kind): (s: SrvShape)
    ensures s.hasLevels <==> !Multisampled(kind)
    ensures s.dim == SrvTextureCube || s.dim == SrvTextureCubeArray <==> kind.Cube? || kind.CubeArray?
  {
    match kind
    case D1(_) => SrvShape(SrvTexture1D, 1, true)
    case D1Array(_, d) => SrvShape(SrvTexture1DArray, d, true)
    case D2(_, _, aa) =>
      if aa.Single? then SrvShape(SrvTexture2D, 1, true) else SrvShape(SrvTexture2DMS, 1, false)
    case D2Array(_, _, d, aa) =>
      if aa.Single? then SrvShape(SrvTexture2DArray, d, true) else SrvShape(SrvTexture2DMSArray, d, false)
    case D3(_, _, _) => SrvShape(SrvTexture3D, 1, true)
    case Cube(_) => SrvShape(SrvTextureCube, 1, true)
    case CubeArray(_, d) => SrvShape(SrvTextureCubeArray, d, true)
  }

  /** A multisampled kind: a 2D kind whose anti-aliasing mode is not `Single`. */
  predicate Multisampled(kind: Kind) {
    (kind.D2? || kind.D2Array?) && !kind.aa.Single?
  }

  /** What `assert!(desc.max >= desc.min)` demands: it runs only once the
      format is known and the dimension has mip levels. */
  predicate SrvLevelsOrdered(kind: Kind, surface: SurfaceType, desc: ResourceDesc, mapFormat: (Format, bool) -> Option<DxgiFormat>) {
    SrvShapeOf(kind).hasLevels && mapFormat(Format(surface, desc.channel), false).Some? ==> desc.max >= desc.min
  }

  /** The SRV descriptor for a texture of `kind` and `surface`, or the error
      of line 596; `max + 1 - min` is computed in the `u8` type of a level. */
  function SrvView(kind: Kind, surface: SurfaceType, desc: ResourceDesc, mapFormat: (Format, bool) -> Option<DxgiFormat>)
    : (r: Result<SrvDesc, ResourceViewError>)
    requires SrvLevelsOrdered(kind, surface, desc, mapFormat)
    ensures r.Err? <==> mapFormat(Format(surface, desc.channel), false).None?
    ensures r.Err? ==> r.error == ResourceChannel(desc.channel)
    ensures r.Ok? ==> Some(r.value.format) == mapFormat(Format(surface, desc.channel), false)
  {
    var shape := SrvShapeOf(kind);
    match mapFormat(Format(surface, desc.channel), false)
    case None => Err(ResourceChannel(desc.channel))
    case Some(fm) =>
      Ok(SrvDesc(fm, shape.dim,
        if shape.hasLevels then Addr4(desc.min, Wrap8(desc.max + 1 - desc.min), 0, shape.layers)
        else Addr4(0, shape.layers, 0, 0)))
  }

  /** The SRV dimension depends on the kind alone: every kind has its own
      dimension, cube kinds included, and exactly the multisampled kinds
      have no mip levels. Cube textures expose one cube, cube arrays
      `d` cubes, and the other kinds their layer count. */
  lemma SrvShapeByKind(kind: Kind)
    ensures var s := SrvShapeOf(kind);
      && (s.hasLevels <==> !Multisampled(kind))
      && (kind.Cube? ==> s.dim == SrvTextureCube && s.layers == 1)
      && (kind.CubeArray? ==> s.dim == SrvTextureCubeArray && s.layers == kind.d)
      && ((kind.D1Array? || kind.D2Array?) ==> s.layers == kind.d)
      && ((kind.D1? || kind.D2? || kind.D3?) ==> s.layers == 1)
      && (s.dim == SrvTexture2DMS <==> kind.D2? && Multisampled(kind))
      && (s.dim == SrvTexture2DMSArray <==> kind.D2Array? && Multisampled(kind))
  {
  }

  /** The addressing of a successful SRV: with levels, the mip range starts
      at `min` and covers `min..=max`, followed by the layer count; without
      levels, only the layer count. Neither depends on the format table. */
  lemma SrvAddressing(kind: Kind, surface: SurfaceType, desc: ResourceDesc, mapFormat: (Format, bool) -> Option<DxgiFormat>)
    requires SrvLevelsOrdered(kind, surface, desc, mapFormat)
    requires SrvView(kind, surface, desc, mapFormat).Ok?
    ensures var v := SrvView(kind, surface, desc, mapFormat).value; var s := SrvShapeOf(kind);
      && v.viewDimension == s.dim
      && (s.hasLevels ==> v.u == Addr4(desc.min, Wrap8(desc.max + 1 - desc.min), 0, s.layers))
      && (s.hasLevels && desc.max < U8_MAX ==> v.u.u0 == desc.min && v.u.u0 + v.u.u1 - 1 == desc.max)
      && (!s.hasLevels ==> v.u == Addr4(0, s.layers, 0, 0))
  {
  }

  /** The SRV never reads the descriptor's layer: a view always covers
      every layer of the texture, whichever layer is asked for. */
  lemma SrvIgnoresLayer(kind: Kind, surface: SurfaceType, desc: ResourceDesc, layer: Option<u16>,
                        mapFormat: (Format, bool) -> Option<DxgiFormat>)
    requires SrvLevelsOrdered(kind, surface, desc, mapFormat)
    ensures SrvLevelsOrdered(kind, surface, desc.(layer := layer), mapFormat)
    ensures SrvView(kind, surface, desc.(layer := layer), mapFormat) == SrvView(kind, surface, desc, mapFormat)
  {
  }

  // ---------------------------------------------------------------------
  // Render-target and depth-stencil views

  /** `D3D11_RTV_DIMENSION` and `D3D11_DSV_DIMENSION` for textures; a DSV
      never takes `Texture3D` (see `DsvMatchesRtv`). */
  datatype TargetDimension =
    | Texture1D | Texture1DArray | Texture2D | Texture2DMS | Texture2DArray | Texture2DMSArray | Texture3D

  /** The three words of the RTV/DSV union the source fills in. */
  datatype Addr3 = Addr3(u0: u32, u1: u32, u2: u32)

  /** `gfx_core::factory::TargetViewError`. */
  datatype TargetViewError = BadLevel(level: u8) | BadLayer(layer: u16) | TargetChannel(channel: ChannelType) | TargetUnsupported

  /** The RTV match table of lines 632-665, arm by arm. */
  function RtvResolve(kind: Kind, layer: Option<u16>, level: u8): (r: Result<(TargetDimension, Addr3), TargetViewError>)
    ensures r.Ok? ==> r.value.0 == TargetDimensionOf(kind)
    ensures r.Err? ==> r.error == (if layer.None? then BadLevel(level) else BadLayer(layer.value))
  {
    match kind
    case D1(_) =>
      if layer.None? then Ok((Texture1D, Addr3(level, 0, 0))) else Err(BadLayer(layer.value))
    case D1Array(_, n) =>
      (match layer
       case Some(lid) => if lid < n then Ok((Texture1DArray, Addr3(level, lid, 1 + lid))) else Err(BadLayer(lid))
       case None => Ok((Texture1DArray, Addr3(level, 0, n))))
    case D2(_, _, aa) =>
      (match layer
       case Some(lid) => Err(BadLayer(lid))
       case None =>
         if aa.Single? then Ok((Texture2D, Addr3(level, 0, 0)))
         else if level == 0 then Ok((Texture2DMS, Addr3(0, 0, 0)))
         else Err(BadLevel(level)))
    case D2Array(_, _, n, aa) =>
      (match layer
       case None =>
         if aa.Single? then Ok((Texture2DArray, Addr3(level, 0, n)))
         else if level == 0 then Ok((Texture2DMSArray, Addr3(0, n, 0)))
         else Err(BadLevel(level))
       case Some(lid) =>
         if aa.Single? && lid < n then Ok((Texture2DArray, Addr3(level, lid, 1 + lid)))
         else if level == 0 && lid < n then Ok((Texture2DMSArray, Addr3(lid, 1 + lid, 0)))
         else Err(BadLayer(lid)))
    case D3(_, _, depth) =>
      (match layer
       case None => Ok((Texture3D, Addr3(level, 0, depth)))
       case Some(lid) => if lid < depth then Ok((Texture3D, Addr3(level, lid, 1 + lid))) else Err(BadLayer(lid)))
    case Cube(_) =>
      (match layer
       case None => Ok((Texture2DArray, Addr3(level, 0, 6)))
       case Some(lid) => if lid < 6 then Ok((Texture2DArray, Addr3(level, lid, 1 + lid))) else Err(BadLayer(lid)))
    case CubeArray(_, n) =>
      (match layer
       case None => Ok((Texture2DArray, Addr3(level, 0, 6 * n)))
       case Some(lid) => if lid < n then Ok((Texture2DArray, Addr3(level, 6 * lid, 6 * (1 + lid)))) else Err(BadLayer(lid)))
  }

  /** The DSV match table of lines 696-726, arm by arm. */
  function DsvResolve(kind: Kind, layer: Option<u16>, level: u8): (r: Result<(TargetDimension, Addr3), TargetViewError>)
    ensures kind.D3? ==> r == Err(TargetUnsupported)
    ensures r.Ok? ==> r.value.0 == TargetDimensionOf(kind) && r.value.0 != Texture3D
    ensures r.Err? && !kind.D3? ==> r.error == (if layer.None? then BadLevel(level) else BadLayer(layer.value))
  {
    match kind
    case D1(_) =>
      if layer.None? then Ok((Texture1D, Addr3(level, 0, 0))) else Err(BadLayer(layer.value))
    case D1Array(_, n) =>
      (match layer
       case Some(lid) => if lid < n then Ok((Texture1DArray, Addr3(level, lid, 1 + lid))) else Err(BadLayer(lid))
       case None => Ok((Texture1DArray, Addr3(level, 0, n))))
    case D2(_, _, aa) =>
      (match layer
       case Some(lid) => Err(BadLayer(lid))
       case None =>
         if aa.Single? then Ok((Texture2D, Addr3(level, 0, 0)))
         else if level == 0 then Ok((Texture2DMS, Addr3(0, 0, 0)))
         else Err(BadLevel(level)))
    case D2Array(_, _, n, aa) =>
      (match layer
       case None =>
         if aa.Single? then Ok((Texture2DArray, Addr3(level, 0, n)))
         else if level == 0 then Ok((Texture2DMSArray, Addr3(0, n, 0)))
         else Err(BadLevel(level))
       case Some(lid) =>
         if aa.Single? && lid < n then Ok((Texture2DArray, Addr3(level, lid, 1 + lid)))
         else if level == 0 && lid < n then Ok((Texture2DMSArray, Addr3(lid, 1 + lid, 0)))
         else Err(BadLayer(lid)))
    case D3(_, _, _) => Err(TargetUnsupported)
    case Cube(_) =>
      (match layer
       case None => Ok((Texture2DArray, Addr3(level, 0, 6)))
       case Some(lid) => if lid < 6 then Ok((Texture2DArray, Addr3(level, lid, 1 + lid))) else Err(BadLayer(lid)))
    case CubeArray(_, n) =>
      (match layer
       case None => Ok((Texture2DArray, Addr3(level, 0, 6 * n)))
       case Some(lid) => if lid < n then Ok((Texture2DArray, Addr3(level, 6 * lid, 6 * (1 + lid)))) else Err(BadLayer(lid)))
  }

  // Reference definitions: what each kind can select.

  /** How many layers a layer selector may name, for kinds that have one. */
  function SelectableLayers(kind: Kind): Option<nat> {
    match kind
    case D1(_) => None
    case D2(_, _, _) => None
    case D1Array(_, n) => Some(n)
    case D2Array(_, _, n, _) => Some(n)
    case D3(_, _, depth) => Some(depth)
    case Cube(_) => Some(6)
    case CubeArray(_, n) => Some(n)
  }

  /** A selection the view table accepts: multisampled textures have only
      level 0, and a layer must exist. */
  predicate TargetSelectable(kind: Kind, layer: Option<u16>, level: u8) {
    && (Multisampled(kind) ==> level == 0)
    && (layer.Some? ==> SelectableLayers(kind).Some? && layer.value < SelectableLayers(kind).value)
  }

  /** The view dimension of each kind. */
  function TargetDimensionOf(kind: Kind): TargetDimension {
    match kind
    case D1(_) => Texture1D
    case D1Array(_, _) => Texture1DArray
    case D2(_, _, aa) => if aa.Single? then Texture2D else Texture2DMS
    case D2Array(_, _, _, aa) => if aa.Single? then Texture2DArray else Texture2DMSArray
    case D3(_, _, _) => Texture3D
    case Cube(_) => Texture2DArray
    case CubeArray(_, _) => Texture2DArray
  }

  /** All array slices of a texture, for kinds that have them. */
  function TotalSlices(kind: Kind): nat {
    match kind
    case D1(_) => 0
    case D2(_, _, _) => 0
    case D1Array(_, n) => n
    case D2Array(_, _, n, _) => n
    case D3(_, _, depth) => depth
    case Cube(_) => 6
    case CubeArray(_, n) => 6 * n
  }

  /** The slices one layer of the selector stands for: a whole cube in a
      cube array, one slice otherwise. */
  function SlicesPerLayer(kind: Kind): nat {
    if kind.CubeArray? then 6 else 1
  }

  /** How Direct3D 11 reads the union for a dimension: the mip slice, when
      the dimension has one, and `(first slice, slice count)`, when it has
      slices (`FirstArraySlice`/`ArraySize`, or `FirstWSlice`/`WSize`). */
  function TargetMip(dim: TargetDimension, a: Addr3): Option<nat> {
    if dim == Texture2DMS || dim == Texture2DMSArray then None else Some(a.u0)
  }

  function TargetSlices(dim: TargetDimension, a: Addr3): Option<(nat, nat)> {
    match dim
    case Texture1D => None
    case Texture2D => None
    case Texture2DMS => None
    case Texture2DMSArray => Some((a.u0, a.u1))
    case Texture1DArray => Some((a.u1, a.u2))
    case Texture2DArray => Some((a.u1, a.u2))
    case Texture3D => Some((a.u1, a.u2))
  }

  /** The RTV table against the reference definitions: it accepts exactly the
      selectable triples, in the kind's dimension; a refused selection is
      `BadLevel(level)` without a layer and `BadLayer(lid)` with one. */
  lemma RtvResolveSpec(kind: Kind, layer: Option<u16>, level: u8)
    ensures var r := RtvResolve(kind, layer, level);
      && (r.Ok? <==> TargetSelectable(kind, layer, level))
      && (r.Ok? ==> r.value.0 == TargetDimensionOf(kind))
      && (!TargetSelectable(kind, layer, level) && layer.None? ==> r == Err(BadLevel(level)))
      && (!TargetSelectable(kind, layer, level) && layer.Some? ==> r == Err(BadLayer(layer.value)))
  {
  }

  /** The DSV table is the RTV table except that every 3D texture is refused
      as `Unsupported`, whatever the layer and the level. */
  lemma DsvMatchesRtv(kind: Kind, layer: Option<u16>, level: u8)
    ensures kind.D3? ==> DsvResolve(kind, layer, level) == Err(TargetUnsupported)
    ensures !kind.D3? ==> DsvResolve(kind, layer, level) == RtvResolve(kind, layer, level)
    ensures DsvResolve(kind, layer, level).Ok? ==> DsvResolve(kind, layer, level).value.0 != Texture3D
  {
  }

  /** The addressing of an accepted RTV as written: the level is the mip
      slice except on multisampled dimensions; without a layer the view
      covers every slice; with layer `lid` the slice range starts at the
      layer's first slice and its count field holds `1 + lid` layers'
      worth of slices. */
  lemma RtvAddressing(kind: Kind, layer: Option<u16>, level: u8)
    requires RtvResolve(kind, layer, level).Ok?
    ensures var (dim, a) := RtvResolve(kind, layer, level).value;
      && TargetMip(dim, a) == (if Multisampled(kind) then None else Some(level))
      && (TargetSlices(dim, a).Some? <==> SelectableLayers(kind).Some?)
      && (layer.None? && TargetSlices(dim, a).Some? ==> TargetSlices(dim, a) == Some((0, TotalSlices(kind))))
      && (layer.Some? ==>
            TargetSlices(dim, a) == Some((SlicesPerLayer(kind) * layer.value, SlicesPerLayer(kind) * (1 + layer.value))))
  {
  }

  /** A concrete selection on which the as-written table addresses slices
      the texture does not have: layer 3 of a four-layer array gets a slice
      count of 4, so the view would span slices 3 to 6. */
  lemma RtvLayerSelectionOverruns()
    ensures var kind := D2Array(16, 16, 4, Single);
      var (dim, a) := RtvResolve(kind, Some(3), 0).value;
      && RtvResolve(kind, Some(3), 0).Ok?
      && TargetSlices(dim, a) == Some((3, 4))
      && TargetSlices(dim, a).value.0 + TargetSlices(dim, a).value.1 > TotalSlices(kind)
  {
  }

  /** The same overrun on the DSV table. */
  lemma DsvLayerSelectionOverruns()
    ensures var kind := D2Array(16, 16, 4, Single);
      var (dim, a) := DsvResolve(kind, Some(3), 0).value;
      && DsvResolve(kind, Some(3), 0).Ok?
      && TargetSlices(dim, a) == Some((3, 4))
      && TargetSlices(dim, a).value.0 + TargetSlices(dim, a).value.1 > TotalSlices(kind)
  {
  }

  /** The addressing with the count field holding one layer's worth of
      slices, as `D3D11_TEX*_ARRAY_RTV/DSV::ArraySize` and `WSize` mean. */
  function WithSliceCount(dim: TargetDimension, a: Addr3, count: u32): Addr3 {
    if dim == Texture2DMSArray then Addr3(a.u0, count, a.u2) else Addr3(a.u0, a.u1, count)
  }

  function IntendedSelection(kind: Kind, layer: Option<u16>, r: Result<(TargetDimension, Addr3), TargetViewError>)
    : Result<(TargetDimension, Addr3), TargetViewError>
  {
    match r
    case Err(e) => Err(e)
    case Ok((dim, a)) =>
      if layer.Some? && TargetSlices(dim, a).Some? then Ok((dim, WithSliceCount(dim, a, SlicesPerLayer(kind)))) else r
  }

  /** The corrected RTV table: a single-layer selection addresses one layer. */
  function RtvResolveIntended(kind: Kind, layer: Option<u16>, level: u8): Result<(TargetDimension, Addr3), TargetViewError> {
    IntendedSelection(kind, layer, RtvResolve(kind, layer, level))
  }

  /** The corrected DSV table. */
  function DsvResolveIntended(kind: Kind, layer: Option<u16>, level: u8): Result<(TargetDimension, Addr3), TargetViewError> {
    IntendedSelection(kind, layer, DsvResolve(kind, layer, level))
  }

  lemma IntendedSelectsOneLayer(kind: Kind, layer: Option<u16>, r: Result<(TargetDimension, Addr3), TargetViewError>, level: u8)
    requires r == RtvResolve(kind, layer, level) || (r == DsvResolve(kind, layer, level) && !kind.D3?)
    ensures var c := IntendedSelection(kind, layer, r);
      && (c.Ok? <==> r.Ok?)
      && (r.Err? ==> c == r)
      && (c.Ok? && layer.None? ==> c == r)
      && (c.Ok? && layer.Some? ==>
            var (dim, a) := c.value;
            && dim == r.value.0
            && TargetMip(dim, a) == TargetMip(r.value.0, r.value.1)
            && TargetSlices(dim, a) == Some((SlicesPerLayer(kind) * layer.value, SlicesPerLayer(kind)))
            && SlicesPerLayer(kind) * layer.value + SlicesPerLayer(kind) <= TotalSlices(kind))
  {
    DsvMatchesRtv(kind, layer, level);
    if r.Ok? {
      RtvAddressing(kind, layer, level);
      RtvResolveSpec(kind, layer, level);
    }
  }

  /** The corrected tables accept and refuse exactly what the as-written
      ones do, and a layer selection addresses exactly the slices of that
      layer, inside the texture. */
  lemma {:induction false} IntendedTargetsInBounds(kind: Kind, layer: Option<u16>, level: u8)
    ensures var r := RtvResolveIntended(kind, layer, level);
      && (r.Ok? <==> TargetSelectable(kind, layer, level))
      && (r.Ok? && layer.Some? ==>
            TargetSlices(r.value.0, r.value.1) == Some((SlicesPerLayer(kind) * layer.value, SlicesPerLayer(kind)))
            && SlicesPerLayer(kind) * (layer.value + 1) <= TotalSlices(kind))
    ensures !kind.D3? ==> DsvResolveIntended(kind, layer, level) == RtvResolveIntended(kind, layer, level)
  {
    RtvResolveSpec(kind, layer, level);
    DsvMatchesRtv(kind, layer, level);
    IntendedSelectsOneLayer(kind, layer, RtvResolve(kind, layer, level), level);
  }

  // Formats after dimensions.

  /** `gfx_core::tex::RenderDesc`. */
  datatype RenderDesc = RenderDesc(channel: ChannelType, level: u8, layer: Option<u16>)

  datatype DsvFlag = ReadOnlyDepth | ReadOnlyStencil

  /** `gfx_core::tex::DepthStencilDesc`. */
  datatype DepthStencilDesc = DepthStencilDesc(level: u8, layer: Option<u16>, flags: set<DsvFlag>)

  /** `D3D11_RENDER_TARGET_VIEW_DESC`. */
  datatype RtvDesc = RtvDesc(format: DxgiFormat, viewDimension: TargetDimension, u: Addr3)

  /** `D3D11_DEPTH_STENCIL_VIEW_DESC`; `flags` is what `map_dsv_flags` gives. */
  datatype DsvDesc = DsvDesc(format: DxgiFormat, viewDimension: TargetDimension, flags: u32, u: Addr3)

  /** The RTV descriptor for a resolved view table entry: a table error is
      reported first, then the typed format is looked up, and its absence
      is `Channel(channel)` (lines 666-674). */
  function RtvDescOf(resolved: Result<(TargetDimension, Addr3), TargetViewError>, surface: SurfaceType,
                     channel: ChannelType, mapFormat: (Format, bool) -> Option<DxgiFormat>)
    : (r: Result<RtvDesc, TargetViewError>)
    ensures resolved.Err? ==> r == Err(resolved.error)
    ensures resolved.Ok? && mapFormat(Format(surface, channel), true).None? ==> r == Err(TargetChannel(channel))
    ensures resolved.Ok? && mapFormat(Format(surface, channel), true).Some? ==>
      && r.Ok?
      && Some(r.value.format) == mapFormat(Format(surface, channel), true)
      && (r.value.viewDimension, r.value.u) == resolved.value
  {
    match resolved
    case Err(e) => Err(e)
    case Ok((dim, extra)) =>
      (match mapFormat(Format(surface, channel), true)
       case None => Err(TargetChannel(channel))
       case Some(fm) => Ok(RtvDesc(fm, dim, extra)))
  }

  /** The RTV descriptor `view_texture_as_render_target_raw` hands the
      device, on the table as written: a refused selection is reported
      before the format, and an accepted one keeps the table's addressing,
      `1 + lid` count included. */
  function RtvView(kind: Kind, surface: SurfaceType, desc: RenderDesc, mapFormat: (Format, bool) -> Option<DxgiFormat>)
    : (r: Result<RtvDesc, TargetViewError>)
    ensures r.Err? && !TargetSelectable(kind, desc.layer, desc.level) ==>
      r.error == (if desc.layer.None? then BadLevel(desc.level) else BadLayer(desc.layer.value))
    ensures TargetSelectable(kind, desc.layer, desc.level) ==>
      (r.Err? <==> mapFormat(Format(surface, desc.channel), true).None?)
    ensures r.Err? && TargetSelectable(kind, desc.layer, desc.level) ==> r.error == TargetChannel(desc.channel)
    ensures r.Ok? ==>
      && TargetSelectable(kind, desc.layer, desc.level)
      && Some(r.value.format) == mapFormat(Format(surface, desc.channel), true)
      && r.value.viewDimension == TargetDimensionOf(kind)
      && (r.value.viewDimension, r.value.u) == RtvResolve(kind, desc.layer, desc.level).value
  {
    RtvDescOf(RtvResolve(kind, desc.layer, desc.level), surface, desc.channel, mapFormat)
  }

  /** The RTV descriptor on the corrected table: a single-layer selection
      addresses one layer. */
  function RtvViewIntended(kind: Kind, surface: SurfaceType, desc: RenderDesc, mapFormat: (Format, bool) -> Option<DxgiFormat>)
    : (r: Result<RtvDesc, TargetViewError>)
    ensures r.Ok? ==>
      && TargetSelectable(kind, desc.layer, desc.level)
      && (r.value.viewDimension, r.value.u) == RtvResolveIntended(kind, desc.layer, desc.level).value
  {
    RtvDescOf(RtvResolveIntended(kind, desc.layer, desc.level), surface, desc.channel, mapFormat)
  }

  /** The channel a DSV asks the format table for: it does not matter to
      the device, so it is fixed (line 728). */
  const DSV_CHANNEL: ChannelType := Uint

  /** The DSV descriptor for a resolved depth-stencil table entry: the
      table error first, then the typed format with the fixed channel,
      whose failure is reported as `Channel(Uint)`, and the mapped flags
      (lines 728-738). */
  function DsvDescOf(resolved: Result<(TargetDimension, Addr3), TargetViewError>, surface: SurfaceType, flags: set<DsvFlag>,
                     mapFormat: (Format, bool) -> Option<DxgiFormat>, mapDsvFlags: set<DsvFlag> -> u32)
    : (r: Result<DsvDesc, TargetViewError>)
    ensures resolved.Err? ==> r == Err(resolved.error)
    ensures resolved.Ok? && mapFormat(Format(surface, DSV_CHANNEL), true).None? ==> r == Err(TargetChannel(DSV_CHANNEL))
    ensures resolved.Ok? && mapFormat(Format(surface, DSV_CHANNEL), true).Some? ==>
      && r.Ok?
      && Some(r.value.format) == mapFormat(Format(surface, DSV_CHANNEL), true)
      && (r.value.viewDimension, r.value.u) == resolved.value
      && r.value.flags == mapDsvFlags(flags)
  {
    match resolved
    case Err(e) => Err(e)
    case Ok((dim, extra)) =>
      (match mapFormat(Format(surface, DSV_CHANNEL), true)
       case None => Err(TargetChannel(DSV_CHANNEL))
       case Some(fm) => Ok(DsvDesc(fm, dim, mapDsvFlags(flags), extra)))
  }

  /** The DSV descriptor `view_texture_as_depth_stencil_raw` hands the
      device, on the table as written: a 3D texture is `Unsupported` before
      the format is looked up, and every other kind is treated as for a
      render target. */
  function DsvView(kind: Kind, surface: SurfaceType, desc: DepthStencilDesc,
                   mapFormat: (Format, bool) -> Option<DxgiFormat>, mapDsvFlags: set<DsvFlag> -> u32)
    : (r: Result<DsvDesc, TargetViewError>)
    ensures kind.D3? ==> r == Err(TargetUnsupported)
    ensures !kind.D3? ==>
      r == DsvDescOf(RtvResolve(kind, desc.layer, desc.level), surface, desc.flags, mapFormat, mapDsvFlags)
    ensures r.Ok? ==>
      && TargetSelectable(kind, desc.layer, desc.level)
      && r.value.viewDimension == TargetDimensionOf(kind)
      && r.value.flags == mapDsvFlags(desc.flags)
      && (r.value.viewDimension, r.value.u) == DsvResolve(kind, desc.layer, desc.level).value
  {
    DsvMatchesRtv(kind, desc.layer, desc.level);
    RtvResolveSpec(kind, desc.layer, desc.level);
    DsvDescOf(DsvResolve(kind, desc.layer, desc.level), surface, desc.flags, mapFormat, mapDsvFlags)
  }

  /** The DSV descriptor on the corrected depth-stencil table. */
  function DsvViewIntended(kind: Kind, surface: SurfaceType, desc: DepthStencilDesc,
                           mapFormat: (Format, bool) -> Option<DxgiFormat>, mapDsvFlags: set<DsvFlag> -> u32)
    : (r: Result<DsvDesc, TargetViewError>)
    ensures kind.D3? ==> r == Err(TargetUnsupported)
    ensures r.Ok? ==> DsvResolveIntended(kind, desc.layer, desc.level).Ok?
    ensures r.Ok? ==> (r.value.viewDimension, r.value.u) == DsvResolveIntended(kind, desc.layer, desc.level).value
  {
    DsvDescOf(DsvResolveIntended(kind, desc.layer, desc.level), surface, desc.flags, mapFormat, mapDsvFlags)
  }

  /** The corrected RTV differs from the one the source builds only in the
      count of a single-layer selection: both succeed and fail together,
      with the same error, format and dimension; without a layer they are
      equal; with a layer the corrected one addresses exactly that layer's
      slices, inside the texture. The DSVs relate in the same way. */
  lemma ViewIntendedDiffersOnlyInCount(kind: Kind, surface: SurfaceType, channel: ChannelType, layer: Option<u16>, level: u8,
                                       flags: set<DsvFlag>, mapFormat: (Format, bool) -> Option<DxgiFormat>,
                                       mapDsvFlags: set<DsvFlag> -> u32)
    ensures var w := RtvView(kind, surface, RenderDesc(channel, level, layer), mapFormat);
      var c := RtvViewIntended(kind, surface, RenderDesc(channel, level, layer), mapFormat);
      && (c.Ok? <==> w.Ok?)
      && (w.Err? ==> c == w)
      && (layer.None? ==> c == w)
      && (c.Ok? ==> c.value.format == w.value.format && c.value.viewDimension == w.value.viewDimension)
      && (c.Ok? && layer.Some? && TargetSlices(c.value.viewDimension, c.value.u).Some? ==>
            TargetSlices(c.value.viewDimension, c.value.u) == Some((SlicesPerLayer(kind) * layer.value, SlicesPerLayer(kind)))
            && SlicesPerLayer(kind) * (layer.value + 1) <= TotalSlices(kind))
    ensures var w := DsvView(kind, surface, DepthStencilDesc(level, layer, flags), mapFormat, mapDsvFlags);
      var c := DsvViewIntended(kind, surface, DepthStencilDesc(level, layer, flags), mapFormat, mapDsvFlags);
      && (c.Ok? <==> w.Ok?)
      && (w.Err? ==> c == w)
      && (layer.None? ==> c == w)
      && (c.Ok? ==> c.value.format == w.value.format && c.value.viewDimension == w.value.viewDimension
                    && c.value.flags == w.value.flags)
  {
    IntendedSelectsOneLayer(kind, layer, RtvResolve(kind, layer, level), level);
    DsvMatchesRtv(kind, layer, level);
    if !kind.D3? {
      IntendedSelectsOneLayer(kind, layer, DsvResolve(kind, layer, level), level);
    }
  }

  /** A cube's render target without a layer covers its six faces. */
  lemma CubeTargetCoversFaces(w: u16, level: u8)
    ensures RtvResolve(Cube(w), None, level) == Ok((Texture2DArray, Addr3(level, 0, 6)))
    ensures TargetSlices(Texture2DArray, Addr3(level, 0, 6)) == Some((0, 6))
  {
  }
}
