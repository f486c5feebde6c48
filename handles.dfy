/** The shared handle store (`share.handles`, a `gfx_core::handle::Manager`)
    that every successful creation registers its object in, and the handle
    values the factory hands back. A handle carries the native object and
    the information `get_info()` later returns. */
module Handles {
  import opened CoreTypes
  import opened BufferCreation
  import opened TextureCreation
  import opened ShaderPrograms
  import opened PipelineStates
  import opened Samplers

  /** `h::RawBuffer`: the native buffer and its `BufferInfo`. */
  datatype RawBuffer = RawBuffer(native: NativeObject, info: BufferInfo)

  /** `h::RawTexture`: the native texture and its descriptor. */
  datatype RawTexture = RawTexture(native: NativeObject, desc: TexDescriptor)

  /** `h::Program`: the program and its reflected info. */
  datatype ProgramHandle = ProgramHandle(program: Program, info: ProgramInfo)

  /** `h::RawPipelineState`: the pipeline record and the program it uses. */
  datatype PipelineHandle = PipelineHandle(pipeline: Pipeline, program: ProgramHandle)

  /** `h::RawShaderResourceView` of a texture. */
  datatype SrvHandle = SrvHandle(native: NativeObject, texture: RawTexture)

  /** `h::RawRenderTargetView` and `h::RawDepthStencilView`: the view, its
      texture and the dimensions of the viewed level. */
  datatype RtvHandle = RtvHandle(native: NativeObject, texture: RawTexture, dims: Dimensions)

  datatype DsvHandle = DsvHandle(native: NativeObject, texture: RawTexture, dims: Dimensions)

  /** `h::RawUnorderedAccessView`; this factory never creates one. */
  datatype UavHandle = UavHandle(native: NativeObject)

  /** `h::Sampler`: the native sampler state and the info it was made from. */
  datatype SamplerHandle = SamplerHandle(native: NativeObject, info: SamplerInfo)

  /** One object of the store, as `make_buffer`, `make_texture`,
      `make_shader`, `make_program`, `make_pso`, `make_texture_srv`,
      `make_rtv`, `make_dsv` and `make_sampler` record it. */
  datatype Entry =
    | BufferEntry(buffer: RawBuffer)
    | TextureEntry(texture: RawTexture)
    | ShaderEntry(shader: Shader)
    | ProgramEntry(program: ProgramHandle)
    | PipelineEntry(pipeline: PipelineHandle)
    | SrvEntry(srv: SrvHandle)
    | RtvEntry(rtv: RtvHandle)
    | DsvEntry(dsv: DsvHandle)
    | SamplerEntry(sampler: SamplerHandle)

  /** The store: the objects created so far, oldest first. */
  class Registry {
    var entries: seq<Entry>

    constructor()
      ensures entries == []
    {
      entries := [];
    }

    /** Records one more object; its handle is its position in the store. */
    method Register(e: Entry) returns (h: Handle)
      modifies this
      ensures entries == old(entries) + [e]
      ensures h == |old(entries)| && entries[h] == e
    {
      h := |entries|;
      entries := entries + [e];
    }
  }
}
