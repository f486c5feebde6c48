/** Buffer validation and sizing (`Factory::create_buffer_internal`): how a
    `BufferInfo` becomes the native `D3D11_BUFFER_DESC`, and which errors are
    reported, in which order, before the device is asked for anything. */
module BufferCreation {
  import opened Ints
  import opened Results
  import opened CoreTypes

  datatype BufferRole = Vertex | Index | Uniform

  /** `gfx_core::factory::BufferInfo`. */
  datatype BufferInfo = BufferInfo(role: BufferRole, usage: Usage, bind: Bind, size: usize, stride: usize)

  /** `gfx_core::factory::BufferError`. */
  datatype BufferError = UnsupportedBind(bind: Bind) | Other

  /** `D3D11_BUFFER_DESC`. */
  datatype NativeBufferDesc = NativeBufferDesc(
    byteWidth: u32,
    usage: NativeUsage,
    bindFlags: set<NativeBind>,
    cpuAccessFlags: CpuAccess,
    miscFlags: u32,
    structureByteStride: u32)

  /** The native bind class contributed by the buffer's role. */
  function RoleBind(role: BufferRole): (b: NativeBind)
    ensures b == VertexBufferBind <==> role == Vertex
    ensures b == IndexBufferBind <==> role == Index
    ensures b == ConstantBufferBind <==> role == Uniform
  {
    match role
    case Vertex => VertexBufferBind
    case Index => IndexBufferBind
    case Uniform => ConstantBufferBind
  }

  /** An index buffer must hold 16- or 32-bit indices. */
  predicate StrideAccepted(info: BufferInfo) {
    info.role != Index || info.stride == 2 || info.stride == 4
  }

  /** Render-target and depth-stencil binds are not offered for buffers. */
  predicate BindAccepted(bind: Bind) {
    RenderTarget !in bind && DepthStencil !in bind
  }

  /** Adding 0xF to a Uniform size cannot overflow `usize`; otherwise the
      source's `assert!(size >= info.size)` or the addition itself panics. */
  predicate SizeRoundable(info: BufferInfo) {
    info.role == Uniform ==> info.size <= USIZE_MAX - 0xF
  }

  /** `(size + 0xF) & !0xF`: clearing the four low bits of a non-negative
      number subtracts its remainder modulo 16. The result is the least
      multiple of 16 that is at least `size`. */
  function RoundUp16(size: usize): (r: usize)
    requires size <= USIZE_MAX - 0xF
    ensures r % 16 == 0 && size <= r < size + 16
  {
    (size + 0xF) - (size + 0xF) % 16
  }

  /** The byte size the buffer is allocated with (lines 111-123). */
  function AllocatedSize(info: BufferInfo): (size: usize)
    requires SizeRoundable(info)
    ensures size >= info.size
    ensures info.role == Uniform ==> size % 16 == 0 && size < info.size + 16
    ensures info.role != Uniform ==> size == info.size
  {
    match info.role
    case Vertex => info.size
    case Index => info.size
    case Uniform => RoundUp16(info.size)
  }

  /** The native descriptor for `info`, or the error the factory reports
      before calling the device. */
  function BufferPlan(info: BufferInfo, t: Tables): (r: Result<NativeBufferDesc, BufferError>)
    requires SizeRoundable(info)
    ensures r == Err(Other) <==> !StrideAccepted(info)
    ensures r == Err(UnsupportedBind(info.bind)) <==> StrideAccepted(info) && !BindAccepted(info.bind)
    ensures r.Err? ==> r == Err(Other) || r == Err(UnsupportedBind(info.bind))
    ensures r.Ok? ==>
      && r.value.byteWidth == Wrap32(AllocatedSize(info))
      && r.value.bindFlags == t.mapBind(info.bind) + {RoleBind(info.role)}
      && r.value.usage == t.mapUsage(info.usage).0
      && r.value.cpuAccessFlags == t.mapUsage(info.usage).1
      && r.value.miscFlags == 0 && r.value.structureByteStride == 0
  {
    if info.role == Index && info.stride != 2 && info.stride != 4 then
      Err(Other)
    else
      var size := AllocatedSize(info);
      var (usage, cpu) := t.mapUsage(info.usage);
      var bind := t.mapBind(info.bind) + {RoleBind(info.role)};
      if RenderTarget in info.bind || DepthStencil in info.bind then
        Err(UnsupportedBind(info.bind))
      else
        Ok(NativeBufferDesc(Wrap32(size), usage, bind, cpu, 0, 0))
  }

  /** The allocated size of a Uniform buffer is the least multiple of 16
      that holds the requested size. */
  lemma UniformSizeIsLeastMultiple(info: BufferInfo, m: int)
    requires info.role == Uniform && SizeRoundable(info)
    requires m % 16 == 0 && m >= info.size
    ensures AllocatedSize(info) <= m
  {
  }
}
