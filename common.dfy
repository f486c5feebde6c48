/** Integer widths of the Rust and Win32 interfaces the factory talks through.
    Overflowing arithmetic is modelled with the wrapping of a release build
    (a debug build would panic instead); each use says which width applies. */
module Ints {
  type u8 = x: int | 0 <= x < 0x100
  type u16 = x: int | 0 <= x < 0x1_0000
  type u32 = x: int | 0 <= x < 0x1_0000_0000
  type u64 = x: int | 0 <= x < 0x1_0000_0000_0000_0000
  /** The factory runs on 64-bit Windows: `usize` is 64 bits wide. */
  type usize = u64

  const U8_MAX: int := 0xFF
  const U16_MAX: int := 0xFFFF
  const U32_MAX: int := 0xFFFF_FFFF
  const USIZE_MAX: int := 0xFFFF_FFFF_FFFF_FFFF

  /** Wrapping `u8` arithmetic, and casts `as u8`. */
  function Wrap8(x: int): (r: u8)
    ensures 0 <= x <= U8_MAX ==> r == x
  {
    x % 0x100
  }

  /** Wrapping `u16` arithmetic, and casts `as u16`. */
  function Wrap16(x: int): (r: u16)
    ensures 0 <= x <= U16_MAX ==> r == x
  {
    x % 0x1_0000
  }

  /** Wrapping `u32` arithmetic, and truncating casts `as UINT`. */
  function Wrap32(x: int): (r: u32)
    ensures 0 <= x <= U32_MAX ==> r == x
  {
    x % 0x1_0000_0000
  }

  /** Multiplication by a positive factor of at least one does not shrink. */
  lemma {:induction false} MulAtLeast(x: int, d: nat)
    requires x >= 1
    ensures x * d >= d
    decreases x
  {
    if x > 1 {
      MulAtLeast(x - 1, d);
      MulDistributes(x - 1, 1, d);
    }
  }

  lemma MulDistributes(a: int, b: int, d: int)
    ensures (a + b) * d == a * d + b * d
  {
  }

  lemma {:induction false} MulMonotone(a: nat, b: nat, c: nat)
    requires b <= c
    ensures a * b <= a * c
  {
    if a > 0 {
      MulMonotone(a - 1, b, c);
      MulDistributes(a - 1, 1, b);
      MulDistributes(a - 1, 1, c);
    }
  }

  /** Euclidean division has one quotient and remainder. */
  lemma DivModUnique(n: int, d: int, q: int, r: int)
    requires 0 < d && 0 <= r < d && n == q * d + r
    ensures n / d == q && n % d == r
  {
    var q', r' := n / d, n % d;
    assert n == q' * d + r';
    var x := q - q';
    MulDistributes(q', x, d);
    assert x * d == r' - r;
    if x >= 1 {
      MulAtLeast(x, d);
    }
    if x <= -1 {
      MulAtLeast(-x, d);
      MulDistributes(x, -x, d);
    }
  }

  /** Adding a multiple of the modulus leaves the remainder alone. */
  lemma ModAddMultiple(x: int, k: int, m: int)
    requires 0 < m
    ensures (x + k * m) % m == x % m
  {
    MulDistributes(x / m, k, m);
    DivModUnique(x + k * m, m, x / m + k, x % m);
  }

  /** Truncating a factor before a 32-bit multiplication does not change
      the truncated product. */
  lemma MulWrap32(a: nat, h: nat)
    ensures Wrap32(Wrap32(a) * h) == Wrap32(a * h)
  {
    var m := 0x1_0000_0000;
    var q, rem := a / m, a % m;
    assert a == q * m + rem;
    MulDistributes(q * m, rem, h);
    MulRearrange(q, m, h);
    ModAddMultiple(rem * h, q * h, m);
  }

  lemma MulRearrange(a: int, b: int, c: int)
    ensures (a * b) * c == (a * c) * b
  {
  }
}

/** The Option and Result wrappers used for the source's `Option` and `Result`. */
module Results {
  datatype Option<T> = None | Some(value: T)

  datatype Result<T, E> = Ok(value: T) | Err(error: E)
}

/** Abstract descriptors shared by every creation path: formats, usage and
    bind classes on the gfx side, and their Direct3D 11 counterparts. The
    tables between the two (`data::map_*`) are not part of this model; they
    appear as function-valued parameters. */
module CoreTypes {
  import opened Ints
  import opened Results

  /** An opaque handle: the position of the object in the handle store. */
  type Handle = nat

  /** A Win32 HRESULT; `SUCCEEDED(hr)` is `hr >= 0`. */
  type HResult = x: int | -0x8000_0000 <= x < 0x8000_0000

  predicate Succeeded(hr: HResult) {
    hr >= 0
  }

  /** `gfx_core::format::SurfaceType`, identified by its enumeration code. */
  datatype SurfaceType = SurfaceType(code: nat)

  /** `gfx_core::format::ChannelType`. */
  datatype ChannelType = Int | Inorm | Uint | Unorm | Float | Srgb

  /** `gfx_core::format::Format`: a surface layout and its interpretation. */
  datatype Format = Format(surface: SurfaceType, channel: ChannelType)

  /** A native `DXGI_FORMAT` code. */
  datatype DxgiFormat = DxgiFormat(code: u32)

  /** The bits of `gfx_core::factory::Bind`. */
  datatype BindFlag = RenderTarget | DepthStencil | ShaderResource | UnorderedAccess

  type Bind = set<BindFlag>

  datatype MapAccess = Readable | Writable | ReadWrite

  /** `gfx_core::factory::Usage`. */
  datatype Usage = GpuOnly | Const | Dynamic | CpuOnly(access: MapAccess)

  /** The bits of `D3D11_BIND_FLAG`. */
  datatype NativeBind =
    | VertexBufferBind | IndexBufferBind | ConstantBufferBind | ShaderResourceBind
    | StreamOutputBind | RenderTargetBind | DepthStencilBind | UnorderedAccessBind

  /** `D3D11_USAGE`. */
  datatype NativeUsage = DefaultUsage | ImmutableUsage | DynamicUsage | StagingUsage

  /** The bits of `D3D11_CPU_ACCESS_FLAG`. */
  datatype CpuAccessFlag = CpuWrite | CpuRead

  type CpuAccess = set<CpuAccessFlag>

  /** The format and flag tables of the backend's `data` module, which are
      not part of this model: `map_format`, `map_surface`, `map_bind`,
      `map_usage`, and `SurfaceType::get_total_bits`. */
  datatype Tables = Tables(
    mapFormat: (Format, bool) -> Option<DxgiFormat>,
    mapSurface: SurfaceType -> Option<DxgiFormat>,
    mapBind: Bind -> set<NativeBind>,
    mapUsage: Usage -> (NativeUsage, CpuAccess),
    totalBits: SurfaceType -> u8)
}
