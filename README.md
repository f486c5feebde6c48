# Direct3D 11 resource factory, modelled in Dafny

This project models the `Factory` of gfx-rs's Direct3D 11 backend
(`src/backend/dx11/src/factory.rs`). The factory turns gfx's abstract
descriptors into Direct3D 11 parameters and calls the device with them:
- buffers, textures, shaders, programs and pipeline states;
- shader-resource, render-target and depth-stencil views;
- samplers.

On success it registers the new object in the shared handle store. It keeps one piece of state of its own, the vertex-shader cache. This maps the hash of each vertex shader's byte code to the code, and input-layout creation later needs that code.

The model follows the source's structure:

- `common.dfy` holds the integer widths and the release-build wrapping of Rust arithmetic (`Wrap8`, `Wrap16`, `Wrap32`). It also holds Option/Result, the descriptor types shared by every path, and a few arithmetic lemmas.
- `buffers.dfy`, `textures.dfy`, `views.dfy`, `shaders.dfy`, `pipelines.dfy`, `samplers.dfy` and `updates.dfy` hold the decision logic as functions. Most functions have lemmas against an independent statement of what they should do; the sampler and topology functions are described field by field. For example, the view tables are compared with a reference "selectable" predicate, and the kind dispatch with the kind's array layers.
- `layouts.dfy` holds the input-layout loop of `create_pipeline_state_raw`. It is an imperative method over a 256-byte `array<u8>`, proved equal to the specification function `LayoutSpec`, with lemmas about that function.
- `handles.dfy` holds the shared handle store. It is a class whose `entries` sequence grows by one on each registration.
- `factory.dfy` holds the `Factory` class. Its fields are the device, the environment, the store, the `vsCache` map and the `useTextureFormatHint` flag. Its methods run the functions above around the device calls, in the source's order.

Native device calls are oracles: deterministic functions in the `Device` datatype that return an HRESULT and the created object. The tables of the backend's `data` module, SipHash, shader reflection, `populate_info`, `get_level_dimensions`, the `state::make_*` builders and `map_dsv_flags` are not part of this model. They are function-valued parameters in `Tables`, `Env`, `StateBuilders` and `SamplerTables`.

Points where the code does something one might not expect:
- Two vertex shaders with the same hash share one cache entry. The later `insert` overwrites the earlier one.
- `6*d` for a cube array's slice count is computed in `u16`.
- An SRV never reads the descriptor's layer, so a view always covers every layer of the texture.
- `update_texture_raw`'s row pitch is counted in bits, because `get_total_bits()` is used unshifted.
- Two discrepancies are modelled as written and then corrected; see "## Findings".

## Model

| member | source | states |
|---|---|---|
| BufferCreation.RoundUp16 | src/backend/dx11/src/factory.rs:122 | `(size + 0xF) & !0xF` is a multiple of 16, at least `size` and less than `size + 16` |
| BufferCreation.RoleBind | src/backend/dx11/src/factory.rs:111-123 | each role has its own bind class: vertex, index or constant buffer |
| BufferCreation.AllocatedSize | src/backend/dx11/src/factory.rs:111-125 | the allocated size never shrinks; Uniform buffers get a multiple of 16 below `size + 16`; Vertex and Index buffers keep their size |
| BufferCreation.UniformSizeIsLeastMultiple | src/backend/dx11/src/factory.rs:121-122 | no multiple of 16 that holds the size is smaller than a Uniform buffer's allocated size |
| BufferCreation.BufferPlan | src/backend/dx11/src/factory.rs:111-138 | an Index buffer with a stride other than 2 or 4 is `Other`, even with a render-target or depth-stencil bind; otherwise such a bind is `UnsupportedBind(bind)` for every role; a success carries the 32-bit size, the role's bind class joined with the mapped binds, the mapped usage and CPU access, and zero misc and stride |
| TextureCreation.SizeProductFits | src/backend/dx11/src/factory.rs:65 | the product of two 16-bit sizes fits 32 bits, so `w * h` does not wrap |
| TextureCreation.RowPitchFits | src/backend/dx11/src/factory.rs:64 | a row of a 16-bit width at `total_bits >> 3` bytes per texel fits 32 bits |
| TextureCreation.SlicePitchIsRows | src/backend/dx11/src/factory.rs:64-65 | the slice pitch computed as `w * h * bpt` in 32 bits equals `h` rows of the 32-bit row pitch |
| TextureCreation.ToSubData | src/backend/dx11/src/factory.rs:60-67 | the subresource data points at the initial data, with row pitch `w * bpt` and slice pitch `h` times the row pitch, in 32 bits |
| TextureCreation.EffectiveHint | src/backend/dx11/src/factory.rs:272-274 | the hint survives exactly when typed formats are enabled and the texture is not bound as depth-stencil |
| TextureCreation.ChooseFormat | src/backend/dx11/src/factory.rs:276-286 | the format fails exactly when the surface, typed by the channel if there is one, has no DXGI format, and the error is `Format(surface, channel)` carrying both inputs; otherwise it is the table's format |
| TextureCreation.ParamOf | src/backend/dx11/src/factory.rs:275-295 | `bytes_per_texel` is the surface's total bits divided by 8, rounded down, as `>> 3` computes it; the levels, the chosen format, and initial data exactly when data is given |
| TextureCreation.MiscOf | src/backend/dx11/src/factory.rs:296-299 | `GENERATE_MIPS` is set exactly when the data asks for mipmaps; the cube flag is never set here |
| TextureCreation.Texture1D | src/backend/dx11/src/factory.rs:165-194 | the 1D descriptor has the size and array size given, the parameter's levels and format, and initial data with slice pitch 0 exactly when the parameter has data |
| TextureCreation.Texture2D | src/backend/dx11/src/factory.rs:196-229 | the 2D descriptor has the sizes, array size and anti-aliasing mode given, and initial data with `h` rows per slice exactly when the parameter has data |
| TextureCreation.Texture3D | src/backend/dx11/src/factory.rs:231-261 | the 3D descriptor has the three sizes given, and initial data with `h` rows per slice exactly when the parameter has data |
| TextureCreation.KindRequest | src/backend/dx11/src/factory.rs:300-315 | 1D kinds take the 1D path and D3 the 3D path; cube kinds are flagged as cubes and single-sampled; the other kinds keep the misc flags; initial data goes along exactly when there is some |
| TextureCreation.TexturePlan | src/backend/dx11/src/factory.rs:271-299 | the plan fails exactly when the surface (typed by the surviving hint) has no DXGI format, and the error is `Format(desc.format, hint)`; a success has the chosen format, the levels, the mapped binds, usage and CPU access, `GENERATE_MIPS` iff the data asks for mipmaps, and initial data iff data is given |
| TextureCreation.KindDispatch | src/backend/dx11/src/factory.rs:300-315 | D1 kinds take the 1D path and D3 the 3D path, the rest the 2D path; the array size is the kind's layer count in `u16`; cube kinds are square, single-sampled and flagged as cubes; D2 kinds keep their anti-aliasing mode |
| TextureCreation.CubeLayersAreFaces | src/backend/dx11/src/factory.rs:311-314 | a cube allocates 6 slices and a cube array `6*d`, a multiple of six, while that fits `u16` |
| TextureCreation.KindRequestData | src/backend/dx11/src/factory.rs:180-186 | initial data goes along on every path, with the base width's row pitch; a 1D texture has slice pitch 0, the others the height's worth of rows |
| TextureCreation.InitialDataPitches | src/backend/dx11/src/factory.rs:275-295 | a planned texture with data carries that data, with row pitch exactly `w * (total_bits >> 3)`, no wrapping |
| TextureCreation.TexturePlanDispatch | src/backend/dx11/src/factory.rs:300-315 | the planned descriptor takes the kind's path and array size; the cube flag is set exactly for cube kinds |
| ViewResolution.SrvView | src/backend/dx11/src/factory.rs:592-605 | the SRV fails exactly when the format and channel have no DXGI format, with `Channel(desc.channel)`; otherwise it carries that format |
| ViewResolution.SrvShapeOf | src/backend/dx11/src/factory.rs:571-590 | exactly the multisampled kinds have no mip levels, and exactly the cube kinds get a cube dimension |
| ViewResolution.SrvShapeByKind | src/backend/dx11/src/factory.rs:571-590 | the SRV dimension depends on the kind alone; cubes expose one cube, cube arrays `d`; exactly the multisampled kinds have no mip levels |
| ViewResolution.SrvIgnoresLayer | src/backend/dx11/src/factory.rs:571-605 | the SRV is the same whichever layer the descriptor names |
| ViewResolution.SrvAddressing | src/backend/dx11/src/factory.rs:599-604 | with levels, the addressing is `[min, max+1-min, 0, layers]` and covers `min..=max`; without levels it is `[0, layers, 0, 0]` |
| ViewResolution.RtvResolve | src/backend/dx11/src/factory.rs:632-665 | the RTV table as written: an accepted selection has the kind's dimension; a refused one is `BadLevel(level)` without a layer and `BadLayer(lid)` with one |
| ViewResolution.DsvResolve | src/backend/dx11/src/factory.rs:696-726 | the DSV table as written: a 3D texture is `Unsupported`; an accepted selection has the kind's dimension, never 3D; other refusals are `BadLevel(level)` or `BadLayer(lid)` |
| ViewResolution.RtvResolveSpec | src/backend/dx11/src/factory.rs:632-665 | the RTV table accepts exactly the selectable (kind, layer, level) triples, in the kind's dimension; a refused `None` is `BadLevel(level)` and a refused `Some(lid)` is `BadLayer(lid)` |
| ViewResolution.DsvMatchesRtv | src/backend/dx11/src/factory.rs:696-726 | the DSV table equals the RTV table except that every 3D texture is `Unsupported` |
| ViewResolution.RtvAddressing | src/backend/dx11/src/factory.rs:632-662 | an accepted view has the level as its mip slice, except on multisampled dimensions; without a layer it covers every slice; with layer `lid` it starts at the layer's first slice and has count `1 + lid` layers |
| ViewResolution.RtvLayerSelectionOverruns | src/backend/dx11/src/factory.rs:645-646 | layer 3 of a four-layer 2D array is addressed as slices 3 to 6 as written |
| ViewResolution.DsvLayerSelectionOverruns | src/backend/dx11/src/factory.rs:709-710 | the same overrun on the DSV table |
| ViewResolution.IntendedSelectsOneLayer | src/backend/dx11/src/factory.rs:632-664 | with the count field holding one layer, a selection addresses exactly that layer's slices, inside the texture, and accepts and refuses as the table does |
| ViewResolution.IntendedTargetsInBounds | src/backend/dx11/src/factory.rs:632-726 | the corrected RTV table accepts exactly the selectable triples, keeps every selection within the texture's slices (for a 3D texture, the depth of level 0), and agrees with the corrected DSV table on all but 3D kinds |
| ViewResolution.RtvView | src/backend/dx11/src/factory.rs:632-674 | the descriptor the source builds: an unselectable triple is `BadLevel(level)` or `BadLayer(lid)` before the format is looked up; a selectable one fails exactly when the typed format is missing, with `Channel(desc.channel)`; a success has the kind's dimension and the as-written table's addressing, `1 + lid` count included |
| ViewResolution.RtvViewIntended | src/backend/dx11/src/factory.rs:632-674 | the RTV descriptor on the corrected table: a success is selectable and has the corrected addressing |
| ViewResolution.DsvView | src/backend/dx11/src/factory.rs:696-738 | the descriptor the source builds: a 3D texture is `Unsupported` before the format is looked up; every other kind is treated as for an RTV, with the fixed channel `Uint` and the mapped DSV flags; a success has the as-written table's addressing |
| ViewResolution.DsvViewIntended | src/backend/dx11/src/factory.rs:696-738 | the DSV descriptor on the corrected table: 3D is still `Unsupported`, and a success has the corrected addressing |
| ViewResolution.ViewIntendedDiffersOnlyInCount | src/backend/dx11/src/factory.rs:632-738 | the corrected RTV and DSV succeed and fail exactly when the as-written ones do, with the same error, format, dimension and flags, and equal without a layer; with a layer the corrected RTV addresses exactly that layer's slices inside the texture |
| ViewResolution.CubeTargetCoversFaces | src/backend/dx11/src/factory.rs:655-656 | a cube's render target without a layer is a 2D array over its six faces |
| ShaderPrograms.StagesOf | src/backend/dx11/src/factory.rs:425-441 | a set's stages are vertex, then geometry when present, then pixel |
| ShaderPrograms.PopulateAll | src/backend/dx11/src/factory.rs:427-441 | the stages' reflections are added one after the other: the last stage is added to the info of all the earlier ones |
| ShaderPrograms.ProgramInfoOrder | src/backend/dx11/src/factory.rs:413-441 | the program info is the empty info with the vertex, geometry (when present) and pixel reflections added in that order |
| ShaderPrograms.ProgramOf | src/backend/dx11/src/factory.rs:424-450 | the program has the vertex and pixel objects and the vertex shader's hash, and a geometry slot exactly for geometry sets |
| ShaderPrograms.ProgramBindsStagesOnlyWithoutGeometry | src/backend/dx11/src/factory.rs:443-448 | as written, a program binds its set's shaders exactly when the set has no geometry stage or its geometry object is the vertex object |
| ShaderPrograms.GeometrySlotCounterexample | src/backend/dx11/src/factory.rs:445 | a set of three distinct shaders whose program puts the vertex shader in the geometry slot |
| ShaderPrograms.ProgramIntended | src/backend/dx11/src/factory.rs:443-448 | the corrected program has the same vertex and pixel objects, hash and geometry-slot presence |
| ShaderPrograms.ProgramIntendedBindsStages | src/backend/dx11/src/factory.rs:443-448 | the corrected program binds each stage's own object, and equals the as-written one exactly when no geometry object differs from the vertex object |
| InputLayouts.Visited | src/backend/dx11/src/factory.rs:464 | the zip visits as many pairs as the shorter list has |
| InputLayouts.BoundPrefixCount | src/backend/dx11/src/factory.rs:464-469 | the bound attributes are one per `Some` slot among the visited pairs |
| InputLayouts.ClassOf | src/backend/dx11/src/factory.rs:487-491 | per-vertex data exactly when the instance rate is 0 |
| InputLayouts.EntryFor | src/backend/dx11/src/factory.rs:475-493 | the element has the name's position, semantic index 0, the mapped format, the attribute's slot, the offset, the rate, and the per-vertex class exactly when the rate is 0 |
| InputLayouts.LayoutSpec | src/backend/dx11/src/factory.rs:464-498 | a layout exists exactly when every visited bound attribute is acceptable; it has one element per bound attribute and a 256-byte buffer that starts with the packed names |
| InputLayouts.PackedNameAt | src/backend/dx11/src/factory.rs:494-497 | each packed name sits at the end of the earlier names and is followed by its NUL byte |
| InputLayouts.CopyName | src/backend/dx11/src/factory.rs:494-496 | copying a name behind the packed names leaves the buffer holding the names, the new one and its NUL byte, followed by zeros |
| InputLayouts.PushElement | src/backend/dx11/src/factory.rs:475-497 | pushing an accepted attribute extends the element list by its element and the buffer by its name |
| InputLayouts.VisitPair | src/backend/dx11/src/factory.rs:466-497 | one turn of the loop skips an unbound slot, refuses an odd offset or an unmappable format (then the layout fails), and otherwise keeps the loop state for one more pair |
| InputLayouts.BuildInputLayout | src/backend/dx11/src/factory.rs:461-498 | the loop returns exactly the layout of `LayoutSpec` |
| InputLayouts.LayoutFailure | src/backend/dx11/src/factory.rs:464-484 | assembly fails exactly when some visited bound slot has an odd offset or an unmappable format |
| InputLayouts.LayoutEntries | src/backend/dx11/src/factory.rs:475-497 | there is one element per visited `Some` slot; each has the mapped format, the attribute's slot, offset and rate, per-vertex input iff the rate is 0, and the NUL-terminated name in the buffer at its `SemanticName` |
| PipelineStates.TopologyOf | src/backend/dx11/src/factory.rs:525-531 | every primitive has a topology code from 1 to 5 |
| PipelineStates.TopologyDecodes | src/backend/dx11/src/factory.rs:525-531 | each primitive's code decodes back to it, so the codes are distinct |
| PipelineStates.TopologyRoundTrip | src/backend/dx11/src/factory.rs:525-531 | the five codes are distinct and decode back to their primitive |
| PipelineStates.DepthStencilChoice | src/backend/dx11/src/factory.rs:536-539 | the descriptor's depth-stencil info is used when present, the empty dummy otherwise |
| PipelineStates.PipelineOf | src/backend/dx11/src/factory.rs:524-541 | the pipeline has the primitive's topology, the layout, the attributes, the program and the three built states |
| Samplers.FilterOpOf | src/backend/dx11/src/factory.rs:757 | the comparison filter operation is used exactly when the sampler compares |
| Samplers.MaxAnisotropyOf | src/backend/dx11/src/factory.rs:764-767 | the anisotropy limit is the anisotropic filter's own, otherwise 0 |
| Samplers.ComparisonOf | src/backend/dx11/src/factory.rs:768 | the comparison defaults to `Always` |
| Samplers.SamplerDescOf | src/backend/dx11/src/factory.rs:757-772 | a comparing sampler is filtered with the comparison operation and keeps its comparison; a plain one uses the product operation and `Always`; the anisotropy is non-zero exactly for a non-zero anisotropic limit |
| Samplers.AlwaysComparisonDiffersByFilter | src/backend/dx11/src/factory.rs:757-768 | no comparison and a comparison with `Always` give the same comparison function, and differ in the descriptor whenever the filter table separates the two operations |
| Updates.BufferUpdateBox | src/backend/dx11/src/factory.rs:789-796 | the buffer box runs from the offset to offset plus length, truncated to `UINT`, one row and one slice |
| Updates.BufferBoxSpansData | src/backend/dx11/src/factory.rs:789-796 | while the end fits 32 bits, the box spans exactly the data's bytes |
| Updates.FaceSlice | src/backend/dx11/src/factory.rs:816-824 | the face's array slice is below 6 |
| Updates.FaceSliceInjective | src/backend/dx11/src/factory.rs:816-824 | distinct faces get distinct slices, and `None` maps to slice 0, the same as `PosX` |
| Updates.Subresource | src/backend/dx11/src/factory.rs:833 | `array_slice * levels + mipmap` in `u8`, exact while it fits |
| Updates.RegionBox | src/backend/dx11/src/factory.rs:825-832 | the box starts at the offsets and ends at offset plus extent in `u16` |
| Updates.RegionBoxSpansImage | src/backend/dx11/src/factory.rs:825-832 | while each end fits 16 bits, the box starts at the region's offsets and spans exactly its width, height and depth |
| Updates.TextureUpdateOf | src/backend/dx11/src/factory.rs:812-833 | the box, the subresource, a row pitch of width times total bits, and a depth pitch of height times the row pitch, in 32 bits |
| Updates.SubresourceRoundTrip | src/backend/dx11/src/factory.rs:833-835 | while it fits, the level and the slice can be read back from the subresource index, in the order `D3D11CalcSubresource` uses |
| Updates.FacesHaveDistinctSubresources | src/backend/dx11/src/factory.rs:816-833 | the six faces of one level get distinct subresources while the indices fit |
| Handles.Registry.Register | src/backend/dx11/src/factory.rs:158 | a registration appends one entry and leaves the others alone |
| Factory.Factory.constructor | src/backend/dx11/src/factory.rs:96-104 | a new factory has an empty cache and typed formats off |
| Factory.Factory.Clone | src/backend/dx11/src/factory.rs:81-86 | a clone shares the device and the store, and starts with an empty cache that keeps every code under its hash |
| Factory.Factory.CreateBufferInternal | src/backend/dx11/src/factory.rs:106-163 | a plan error is returned before any device call; a device failure is `Other`; a success registers the buffer with its info; a failure leaves the store unchanged |
| Factory.Factory.CreateBufferRaw | src/backend/dx11/src/factory.rs:336-338 | a buffer without initial data: a plan error first, a device failure is `Other`, a success carries the device's buffer and the info and registers it |
| Factory.Factory.CreateBufferConstRaw | src/backend/dx11/src/factory.rs:340-350 | an immutable buffer of the data's length, created with the data: a plan error first, a device failure is `Other`, a success carries the device's buffer and registers it |
| Factory.Factory.CreateTextureInternal | src/backend/dx11/src/factory.rs:263-321 | a format error is returned before any device call; a device failure is `Kind`, never `Format`; a success registers the texture with its descriptor |
| Factory.Factory.CreateTextureRaw | src/backend/dx11/src/factory.rs:545-548 | a texture without initial data: a format error first, a device failure is `Kind`, never `Format`, a success carries the device's texture and the descriptor and registers it |
| Factory.Factory.CreateTextureWithData | src/backend/dx11/src/factory.rs:550-553 | the channel is the hint and the data goes along as initial data: a format error first, a device failure is `Kind`, never `Format`, a success carries the device's texture and registers it |
| Factory.Factory.CreateShader | src/backend/dx11/src/factory.rs:352-405 | success iff the device succeeds; the shader has the reflection and the hash of its code; on success the cache becomes the old cache with `hash(code) := code` iff the stage is Vertex, and no other entry changes; a failure reports the HRESULT and changes nothing; every cached code stays keyed by its own hash |
| Factory.Factory.CreateProgram | src/backend/dx11/src/factory.rs:407-452 | the info is populated stage by stage in pipeline order; the program is the one the source builds, with the vertex shader's object in the geometry slot, and records the vertex shader's hash; it is registered and never fails |
| Factory.Factory.CreatePipelineStateRaw | src/backend/dx11/src/factory.rs:454-543 | a refused attribute fails whatever the cache holds; then a cache miss on the program's hash fails; then success iff the device accepts the layout with the cached code; a success registers the pipeline built from that layout; while the cache keeps every code under its own hash, the code passed to the device is the one whose hash the program records |
| Factory.ShaderProgramPipeline | src/backend/dx11/src/factory.rs:393-394 | a vertex shader just created has its code cached under its hash, so a pipeline for a program over it fails only on its layout or in the device; the cache still keeps every code under its own hash |
| Factory.Factory.ViewBufferAsShaderResourceRaw | src/backend/dx11/src/factory.rs:555-558 | always `Unsupported` |
| Factory.Factory.ViewBufferAsUnorderedAccessRaw | src/backend/dx11/src/factory.rs:560-563 | always `Unsupported` |
| Factory.Factory.ViewTextureAsUnorderedAccessRaw | src/backend/dx11/src/factory.rs:619-622 | always `Unsupported` |
| Factory.Factory.ViewTextureAsShaderResourceRaw | src/backend/dx11/src/factory.rs:565-617 | a format error comes before the device call; a device failure is `Unsupported`; a success registers the view of the texture |
| Factory.Factory.ViewTextureAsRenderTargetRaw | src/backend/dx11/src/factory.rs:624-686 | the descriptor of `RtvView`, on the table as written: table and format errors come before the device call; a device failure is `Unsupported`; a success registers the view with the level's dimensions |
| Factory.Factory.ViewTextureAsDepthStencilRaw | src/backend/dx11/src/factory.rs:688-751 | the descriptor of `DsvView`, on the table as written: as for render targets, with the depth-stencil table and flags |
| Factory.Factory.CreateSampler | src/backend/dx11/src/factory.rs:753-784 | the sampler is created from the descriptor of `SamplerDescOf` and registered with its info |
| Factory.Factory.UpdateBufferRaw | src/backend/dx11/src/factory.rs:786-803 | computes the box and reports success without touching anything |
| Factory.Factory.UpdateTextureRaw | src/backend/dx11/src/factory.rs:805-841 | computes pitches, box and subresource and reports success without touching anything |

## Left out

- `RawMapping` and the `map_buffer_*` / `unmap_buffer_raw` functions: these are raw-pointer access, and the functions are `unimplemented!()`.
- `get_capabilities` and `create_command_buffer`: they return the shared capabilities and a new command buffer, which are not factory logic.
- COM reference counting is not modelled: device `AddRef`/`Release` in `Clone`/`Drop`, and the shaders' `AddRef` in `create_program`.
- The frame-handle manager (`frame_handles`, `reference`, `ref_*`): handles are values that carry their native object and info.
- `Arc<Share>` sharing and `borrow_mut`: the store is one `Registry` object, and there is no concurrency.
- Logging (`debug!`, `error!`).
- The floating-point sampler fields: LOD bias, LOD range and border colour.
- The commented-out `UpdateSubresource` calls. The update methods compute their inputs and report success.
- Device calls are deterministic functions of their inputs. Repeated identical calls are not told apart.
- `CreateShaderError::CompilationFailed` carries the HRESULT instead of its formatted message.
- `map_anti_alias` is not applied: the 2D descriptor keeps the `AaMode`.
- `InputLayouts.BuildInputLayout`: requires that the packed names fit the 256-byte buffer, which the source does not demand. When the names overflow, the source truncates the last name without complaint, or panics at the next element's `&charbuf[charpos]`, unless that element is refused for an odd offset. An unmappable format does not prevent the panic, because `&charbuf[charpos]` is evaluated before the format is looked up.
- `Factory.Factory.CreatePipelineStateRaw`: carries the same requirement on the names.
- `BufferCreation.BufferPlan`: requires that a Uniform size plus 15 fits `usize`. Otherwise the source's addition wraps and its `assert!(size >= info.size)` panics.
- `ViewResolution.SrvView`: requires `max >= min` whenever the source's `assert!` runs.
- `Factory.Factory.ViewTextureAsShaderResourceRaw`: carries the same requirement on the mip range.
- `ViewResolution.IntendedTargetsInBounds`: for a 3D texture the slice bound is the depth of level 0. At a higher level the view addresses that level's W-slices, which are fewer; `get_level_dimensions` is abstract, so this bound is not stated for them.
- `Factory.Factory.CreateSampler`: requires the device call to succeed, because the source ends that path in `unimplemented!()`.
- Integer overflow is modelled as a release build (wrapping). A debug build would panic instead: on `6*d`, `max + 1 - min`, `array_slice * levels + mipmap`, the pitch products, the `u16` box ends `xoffset + width`, `yoffset + height` and `zoffset + depth` of a texture update, and the `usize` sum `offset_bytes + data.len()` of a buffer update.

## Findings

| source | as written | input that shows it | evidently intended | confidence | as-written member | corrected member |
|---|---|---|---|---|---|---|
| src/backend/dx11/src/factory.rs:445 | the geometry slot of a geometry program receives `vs.object` | any `ShaderSet::Geometry(vs, gs, ps)` with distinct objects | `gs: gs.object` | high; not executed | ShaderPrograms.GeometrySlotCounterexample | ShaderPrograms.ProgramIntendedBindsStages |
| src/backend/dx11/src/factory.rs:646 | a single-layer selection puts `1+lid` in `ArraySize`, which is a count, not an end index (also lines 636, 650, 654, 658, 662 and 700-723) | `D2Array(16, 16, 4, Single)`, layer 3, level 0 gives slices 3 to 6 of a 4-slice texture | a count of one layer (`1`, or `6` for a cube array) | high; not executed | ViewResolution.RtvLayerSelectionOverruns | ViewResolution.IntendedTargetsInBounds |

The as-written definitions are `ShaderPrograms.ProgramOf`, `ViewResolution.RtvResolve` and `ViewResolution.DsvResolve`. They are kept with their counterexamples. The `Factory` class runs the code as written: `CreateProgram` builds `ProgramOf`, and the view methods hand the device `RtvView` and `DsvView`, which read `RtvResolve` and `DsvResolve`. The corrected definitions stand beside them: `ShaderPrograms.ProgramIntended`, `ViewResolution.RtvResolveIntended`/`DsvResolveIntended` and the views `RtvViewIntended`/`DsvViewIntended` over them. `ProgramIntendedBindsStages` and `ViewIntendedDiffersOnlyInCount` state exactly how each correction differs from the code as written.
