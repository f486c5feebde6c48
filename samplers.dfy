/** The sampler descriptor of `create_sampler` (lines 757-772): the filter
    operation, the maximum anisotropy and the comparison function. The
    floating-point fields (LOD bias, LOD range, border colour) are not part
    of this model. */
module Samplers {
  import opened Ints
  import opened Results

  /** `gfx_core::tex::FilterMethod`. */
  datatype FilterMethod = Scale | Mipmap | Bilinear | Trilinear | Anisotropic(max: u8)

  /** `gfx_core::tex::WrapMode`. */
  datatype WrapMode = Tile | Mirror | Clamp | Border

  /** `gfx_core::state::Comparison`. */
  datatype Comparison = Never | Less | LessEqual | Equal | GreaterEqual | Greater | NotEqual | Always

  /** The backend's `data::FilterOp`. */
  datatype FilterOp = ProductOp | ComparisonOp

  /** `gfx_core::tex::SamplerInfo` without its floating-point fields. */
  datatype SamplerInfo = SamplerInfo(filter: FilterMethod, wrapMode: (WrapMode, WrapMode, WrapMode), comparison: Option<Comparison>)

  /** `data::map_filter`, `data::map_wrap` and `data::map_function`, which
      are not part of this model. */
  datatype SamplerTables = SamplerTables(
    mapFilter: (FilterMethod, FilterOp) -> u32,
    mapWrap: WrapMode -> u32,
    mapFunction: Comparison -> u32)

  /** `D3D11_SAMPLER_DESC` without its floating-point fields. */
  datatype SamplerDesc = SamplerDesc(filter: u32, addressU: u32, addressV: u32, addressW: u32, maxAnisotropy: u32, comparisonFunc: u32)

  /** A comparison sampler filters with the comparison operation. */
  function FilterOpOf(info: SamplerInfo): (op: FilterOp)
    ensures op == ComparisonOp <==> info.comparison.Some?
  {
    if info.comparison.Some? then ComparisonOp else ProductOp
  }

  /** The anisotropy limit: the anisotropic filter's own, zero for the others. */
  function MaxAnisotropyOf(filter: FilterMethod): (m: u32)
    ensures filter.Anisotropic? ==> m == filter.max
    ensures !filter.Anisotropic? ==> m == 0
  {
    match filter
    case Anisotropic(max) => max
    case _ => 0
  }

  /** The comparison, `Always` when the sampler has none. */
  function ComparisonOf(info: SamplerInfo): (c: Comparison)
    ensures info.comparison.Some? ==> c == info.comparison.value
    ensures info.comparison.None? ==> c == Always
  {
    if info.comparison.Some? then info.comparison.value else Always
  }

  /** The native sampler descriptor (lines 757-772): a comparing sampler
      is filtered with the comparison operation and keeps its comparison,
      a plain one is filtered with the product operation and compares with
      `Always`; a non-zero anisotropy appears exactly for an anisotropic
      filter with a non-zero limit. */
  function SamplerDescOf(info: SamplerInfo, t: SamplerTables): (d: SamplerDesc)
    ensures info.comparison.Some? ==>
      d.filter == t.mapFilter(info.filter, ComparisonOp) && d.comparisonFunc == t.mapFunction(info.comparison.value)
    ensures info.comparison.None? ==>
      d.filter == t.mapFilter(info.filter, ProductOp) && d.comparisonFunc == t.mapFunction(Always)
    ensures d.maxAnisotropy != 0 <==> info.filter.Anisotropic? && info.filter.max != 0
  {
    SamplerDesc(
      t.mapFilter(info.filter, FilterOpOf(info)),
      t.mapWrap(info.wrapMode.0), t.mapWrap(info.wrapMode.1), t.mapWrap(info.wrapMode.2),
      MaxAnisotropyOf(info.filter),
      t.mapFunction(ComparisonOf(info)))
  }

  /** A sampler without a comparison and one comparing with `Always` get
      the same comparison function but different filter operations, so
      the descriptor still tells them apart when the filter table does. */
  lemma AlwaysComparisonDiffersByFilter(info: SamplerInfo, t: SamplerTables)
    requires info.comparison.None?
    requires t.mapFilter(info.filter, ProductOp) != t.mapFilter(info.filter, ComparisonOp)
    ensures var always := info.(comparison := Some(Always));
      && SamplerDescOf(info, t).comparisonFunc == SamplerDescOf(always, t).comparisonFunc
      && SamplerDescOf(info, t) != SamplerDescOf(always, t)
  {
  }
}
