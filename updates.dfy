/** The destination box and subresource of `update_buffer_raw` and
    `update_texture_raw` (lines 786-838). The `UpdateSubresource` calls
    that would consume them are commented out in the source; the
    computation itself is what is modelled here. */
module Updates {
  import opened Ints
  import opened Results
  import opened CoreTypes
  import opened TextureCreation

  /** `D3D11_BOX`. */
  datatype NativeBox = NativeBox(left: u32, top: u32, front: u32, right: u32, bottom: u32, back: u32)

  /** The box of a buffer update: bytes `offset .. offset + len` of a
      one-row, one-slice resource, truncated to `UINT`. */
  function BufferUpdateBox(offset: usize, len: usize): (b: NativeBox)
    ensures b.left == Wrap32(offset) && b.right == Wrap32(offset + len)
    ensures b.top == 0 && b.front == 0 && b.bottom == 1 && b.back == 1
  {
    NativeBox(Wrap32(offset), 0, 0, Wrap32(offset + len), 1, 1)
  }

  /** While the end of the range fits in 32 bits, the box spans exactly the
      data's bytes. */
  lemma BufferBoxSpansData(offset: usize, len: usize)
    requires offset + len <= U32_MAX
    ensures var b := BufferUpdateBox(offset, len);
      b.left == offset && b.right - b.left == len && b.bottom - b.top == 1 && b.back - b.front == 1
  {
  }

  /** `gfx_core::tex::CubeFace`. */
  datatype CubeFace = PosX | NegX | PosY | NegY | PosZ | NegZ

  /** The array slice of a face (lines 816-824); `None` maps to slice 0,
      the same as `PosX`. */
  function FaceSlice(face: Option<CubeFace>): (slice: u8)
    ensures slice < 6
  {
    match face
    case None => 0
    case Some(PosX) => 0
    case Some(NegX) => 1
    case Some(PosY) => 2
    case Some(NegY) => 3
    case Some(PosZ) => 4
    case Some(NegZ) => 5
  }

  /** Distinct faces occupy distinct slices, and `None` maps to slice 0,
      the same as `PosX`. */
  lemma FaceSliceInjective(f: CubeFace, g: CubeFace)
    ensures FaceSlice(Some(f)) == FaceSlice(Some(g)) <==> f == g
    ensures FaceSlice(None) == FaceSlice(Some(PosX))
  {
  }

  /** `gfx_core::tex::RawImageInfo`: the region's offsets and extent are
      `Size`s (`u16`), the level a `Level` (`u8`). */
  datatype RawImageInfo = RawImageInfo(
    xoffset: u16, yoffset: u16, zoffset: u16,
    width: u16, height: u16, depth: u16,
    format: Format,
    mipmap: u8)

  /** What `update_texture_raw` computes for `UpdateSubresource`. */
  datatype TextureUpdate = TextureUpdate(dstBox: NativeBox, subresource: u8, rowPitch: u32, depthPitch: u32)

  /** `array_slice * levels + mipmap` in the `u8` type of a level. */
  function Subresource(slice: u8, levels: u8, mip: u8): (s: u8)
    ensures slice * levels + mip <= U8_MAX ==> s == slice * levels + mip
  {
    Wrap8(Wrap8(slice * levels) + mip)
  }

  /** The region's box: each end is offset plus extent in `u16`. */
  function RegionBox(image: RawImageInfo): (b: NativeBox)
    ensures b.left == image.xoffset && b.top == image.yoffset && b.front == image.zoffset
    ensures b.right == Wrap16(image.xoffset + image.width)
    ensures b.bottom == Wrap16(image.yoffset + image.height)
    ensures b.back == Wrap16(image.zoffset + image.depth)
  {
    NativeBox(image.xoffset, image.yoffset, image.zoffset,
      Wrap16(image.xoffset + image.width), Wrap16(image.yoffset + image.height), Wrap16(image.zoffset + image.depth))
  }

  /** While each end fits in 16 bits, the box starts at the region's
      offsets and spans exactly its extent along every axis. */
  lemma RegionBoxSpansImage(image: RawImageInfo)
    requires image.xoffset + image.width <= U16_MAX
    requires image.yoffset + image.height <= U16_MAX
    requires image.zoffset + image.depth <= U16_MAX
    ensures var b := RegionBox(image);
      && b.left == image.xoffset && b.top == image.yoffset && b.front == image.zoffset
      && b.right - b.left == image.width
      && b.bottom - b.top == image.height
      && b.back - b.front == image.depth
  {
  }

  /** The update of lines 812-833 for a texture with `levels` mip levels
      whose level `image.mipmap` has dimensions `dims`. The row pitch is
      the width times `get_total_bits()` of the image's surface. */
  function TextureUpdateOf(dims: Dimensions, levels: u8, image: RawImageInfo, face: Option<CubeFace>,
                           totalBits: SurfaceType -> u8): (u: TextureUpdate)
    ensures u.dstBox == RegionBox(image)
    ensures u.subresource == Subresource(FaceSlice(face), levels, image.mipmap)
    ensures u.rowPitch == Wrap32(dims.w * totalBits(image.format.surface))
    ensures u.depthPitch == Wrap32(dims.h * u.rowPitch)
  {
    var stride := totalBits(image.format.surface);
    var rowPitch := Wrap32(dims.w * stride);
    TextureUpdate(RegionBox(image), Subresource(FaceSlice(face), levels, image.mipmap), rowPitch, Wrap32(dims.h * rowPitch))
  }

  /** The subresource index encodes slice and level in the order Direct3D
      11 uses (`D3D11CalcSubresource`): while it fits its `u8`, the level
      and the slice can be read back from it. */
  lemma {:induction false} SubresourceRoundTrip(slice: u8, levels: u8, mip: u8)
    requires mip < levels && slice * levels + mip <= U8_MAX
    ensures Subresource(slice, levels, mip) % levels == mip
    ensures Subresource(slice, levels, mip) / levels == slice
  {
    var s := Subresource(slice, levels, mip);
    assert s == slice * levels + mip;
    DivModUnique(s, levels, slice, mip);
  }

  /** Each cube face of a level gets its own subresource while the indices
      fit their `u8`. */
  lemma FacesHaveDistinctSubresources(f: CubeFace, g: CubeFace, levels: u8, mip: u8)
    requires mip < levels && 5 * levels + mip <= U8_MAX
    requires f != g
    ensures Subresource(FaceSlice(Some(f)), levels, mip) != Subresource(FaceSlice(Some(g)), levels, mip)
  {
    var sf := FaceSlice(Some(f));
    var sg := FaceSlice(Some(g));
    FaceSliceInjective(f, g);
    SliceFits(sf, levels, mip);
    SliceFits(sg, levels, mip);
    SubresourceRoundTrip(sf, levels, mip);
    SubresourceRoundTrip(sg, levels, mip);
  }

  lemma SliceFits(s: u8, levels: u8, mip: u8)
    requires s <= 5 && 5 * levels + mip <= U8_MAX
    ensures s * levels + mip <= U8_MAX
  {
    assert s * levels <= 5 * levels;
  }
}
