/** Input-layout assembly (`create_pipeline_state_raw`, lines 461-498): the
    loop over the program's reflected attributes zipped with the pipeline
    descriptor's attribute slots, which builds the `D3D11_INPUT_ELEMENT_DESC`
    list and packs the semantic names into a 256-byte character buffer. */
module InputLayouts {
  import opened Ints
  import opened Results
  import opened CoreTypes
  import opened ShaderPrograms

  /** `gfx_core::pso::Element`; the offset is an `ElemOffset` (`u32`). */
  datatype Element = Element(format: Format, offset: u32)

  /** One entry of `Descriptor::attributes`: an element and its instance
      rate (`u8`), or an unbound slot. */
  type AttributeSlot = Option<(Element, u8)>

  /** `D3D11_INPUT_CLASSIFICATION`. */
  datatype InputClass = PerVertexData | PerInstanceData

  /** `D3D11_INPUT_ELEMENT_DESC`; `semanticName` is the offset into the
      character buffer that the `SemanticName` pointer addresses. */
  datatype InputElementDesc = InputElementDesc(
    semanticName: nat,
    semanticIndex: u32,
    format: DxgiFormat,
    inputSlot: u32,
    alignedByteOffset: u32,
    inputSlotClass: InputClass,
    instanceDataStepRate: u32)

  /** The size of the stack buffer holding the semantic names. */
  const CHARBUF_SIZE: nat := 256

  /** What `CreateInputLayout` is given: the element list and the bytes of
      the character buffer (the buffer holds `i8` characters; their bits
      are the names' bytes). */
  datatype InputLayout = InputLayout(elements: seq<InputElementDesc>, charbuf: seq<u8>)

  /** An attribute whose descriptor slot is bound. */
  datatype BoundAttribute = BoundAttribute(attr: AttributeVar, elem: Element, rate: u8)

  /** How many pairs the zip visits: the length of the shorter list. */
  function Visited(attrs: seq<AttributeVar>, slots: seq<AttributeSlot>): (n: nat)
    ensures n <= |attrs| && n <= |slots|
    ensures n == |attrs| || n == |slots|
  {
    if |attrs| <= |slots| then |attrs| else |slots|
  }

  /** The bound attribute at a visited position. */
  function BoundAt(attrs: seq<AttributeVar>, slots: seq<AttributeSlot>, j: nat): BoundAttribute
    requires j < |attrs| && j < |slots| && slots[j].Some?
  {
    BoundAttribute(attrs[j], slots[j].value.0, slots[j].value.1)
  }

  /** The bound attributes among the first `i` pairs, in order. */
  function BoundPrefix(attrs: seq<AttributeVar>, slots: seq<AttributeSlot>, i: nat): seq<BoundAttribute>
    requires i <= |attrs| && i <= |slots|
  {
    if i == 0 then []
    else BoundPrefix(attrs, slots, i - 1) + (if slots[i - 1].Some? then [BoundAt(attrs, slots, i - 1)] else [])
  }

  /** The bound attributes the loop visits. */
  function Bound(attrs: seq<AttributeVar>, slots: seq<AttributeSlot>): seq<BoundAttribute> {
    BoundPrefix(attrs, slots, Visited(attrs, slots))
  }

  /** A bound attribute the loop accepts: a 2-byte aligned offset and a
      format `map_format(format, false)` knows. */
  predicate Acceptable(b: BoundAttribute, mapFormat: (Format, bool) -> Option<DxgiFormat>) {
    b.elem.offset % 2 == 0 && mapFormat(b.elem.format, false).Some?
  }

  /** The names of `bs`, each followed by a NUL byte, back to back. */
  function PackNames(bs: seq<BoundAttribute>): seq<u8> {
    if |bs| == 0 then [] else PackNames(bs[..|bs| - 1]) + bs[|bs| - 1].attr.name + [0]
  }

  /** The packed names of the visited attributes fit the character buffer. */
  predicate NamesFit(attrs: seq<AttributeVar>, slots: seq<AttributeSlot>) {
    |PackNames(Bound(attrs, slots))| <= CHARBUF_SIZE
  }

  function Zeros(n: nat): (r: seq<u8>)
    ensures |r| == n && forall i :: 0 <= i < n ==> r[i] == 0
  {
    seq(n, _ => 0)
  }

  /** Per-vertex data has instance rate 0; anything else steps per instance. */
  function ClassOf(rate: u8): (c: InputClass)
    ensures c == PerVertexData <==> rate == 0
  {
    if rate == 0 then PerVertexData else PerInstanceData
  }

  /** The element pushed for a bound attribute (lines 478-494). */
  function EntryFor(b: BoundAttribute, format: DxgiFormat, namePos: nat): (e: InputElementDesc)
    ensures e.semanticName == namePos && e.semanticIndex == 0 && e.format == format
    ensures e.inputSlot == b.attr.slot && e.alignedByteOffset == b.elem.offset
    ensures e.inputSlotClass == PerVertexData <==> b.rate == 0
    ensures e.instanceDataStepRate == b.rate
  {
    InputElementDesc(namePos, 0, format, b.attr.slot, b.elem.offset, ClassOf(b.rate), b.rate)
  }

  /** The `k`th element: the attribute's mapped format, and its name at the
      offset where the earlier names end. */
  function EntryAt(bs: seq<BoundAttribute>, k: nat, mapFormat: (Format, bool) -> Option<DxgiFormat>): InputElementDesc
    requires k < |bs| && Acceptable(bs[k], mapFormat)
  {
    EntryFor(bs[k], mapFormat(bs[k].elem.format, false).value, |PackNames(bs[..k])|)
  }

  /** The input layout of a program and a pipeline descriptor: one element
      per bound attribute when all of them are acceptable, with the names
      packed at the front of a zeroed buffer; none otherwise. */
  function LayoutSpec(attrs: seq<AttributeVar>, slots: seq<AttributeSlot>, mapFormat: (Format, bool) -> Option<DxgiFormat>)
    : (r: Option<InputLayout>)
    requires NamesFit(attrs, slots)
    ensures r.Some? <==> forall b | b in Bound(attrs, slots) :: Acceptable(b, mapFormat)
    ensures r.Some? ==> |r.value.elements| == |Bound(attrs, slots)| && |r.value.charbuf| == CHARBUF_SIZE
    ensures r.Some? ==> r.value.charbuf[..|PackNames(Bound(attrs, slots))|] == PackNames(Bound(attrs, slots))
  {
    var bs := Bound(attrs, slots);
    if forall k :: 0 <= k < |bs| ==> Acceptable(bs[k], mapFormat) then
      Some(InputLayout(
        seq(|bs|, k requires 0 <= k < |bs| => EntryAt(bs, k, mapFormat)),
        PackNames(bs) + Zeros(CHARBUF_SIZE - |PackNames(bs)|)))
    else None
  }

  // Facts about the bound attributes and the packed names.

  /** Earlier prefixes of the bound list are prefixes of later ones. */
  lemma {:induction false} BoundPrefixGrows(attrs: seq<AttributeVar>, slots: seq<AttributeSlot>, i: nat, j: nat)
    requires i <= j <= |attrs| && j <= |slots|
    ensures BoundPrefix(attrs, slots, i) <= BoundPrefix(attrs, slots, j)
    decreases j - i
  {
    if i < j {
      BoundPrefixGrows(attrs, slots, i, j - 1);
    }
  }

  /** `b` is what one of the first `i` pairs contributes. */
  predicate FromSlot(attrs: seq<AttributeVar>, slots: seq<AttributeSlot>, i: nat, b: BoundAttribute)
    requires i <= |attrs| && i <= |slots|
  {
    exists j :: 0 <= j < i && slots[j].Some? && b == BoundAt(attrs, slots, j)
  }

  /** Each bound attribute comes from a visited position whose slot is bound. */
  lemma {:induction false} BoundPrefixOrigins(attrs: seq<AttributeVar>, slots: seq<AttributeSlot>, i: nat)
    requires i <= |attrs| && i <= |slots|
    ensures forall k :: 0 <= k < |BoundPrefix(attrs, slots, i)| ==> FromSlot(attrs, slots, i, BoundPrefix(attrs, slots, i)[k])
  {
    if i == 0 {
      assert BoundPrefix(attrs, slots, i) == [];
    } else {
      BoundPrefixOrigins(attrs, slots, i - 1);
      var prev := BoundPrefix(attrs, slots, i - 1);
      var cur := BoundPrefix(attrs, slots, i);
      forall k | 0 <= k < |cur|
        ensures FromSlot(attrs, slots, i, cur[k])
      {
        if k < |prev| {
          assert FromSlot(attrs, slots, i - 1, prev[k]);
          var j :| 0 <= j < i - 1 && slots[j].Some? && prev[k] == BoundAt(attrs, slots, j);
          assert cur[k] == prev[k];
        } else {
          assert cur[k] == BoundAt(attrs, slots, i - 1);
        }
      }
    }
  }

  /** Each visited position whose slot is bound contributes its attribute. */
  lemma {:induction false} BoundPrefixMembers(attrs: seq<AttributeVar>, slots: seq<AttributeSlot>, i: nat)
    requires i <= |attrs| && i <= |slots|
    ensures forall j :: 0 <= j < i && slots[j].Some? ==> BoundAt(attrs, slots, j) in BoundPrefix(attrs, slots, i)
  {
    if i > 0 {
      BoundPrefixMembers(attrs, slots, i - 1);
      assert BoundPrefix(attrs, slots, i - 1) <= BoundPrefix(attrs, slots, i);
    }
  }

  /** There are as many bound attributes as bound slots among the visited. */
  lemma {:induction false} BoundPrefixCount(attrs: seq<AttributeVar>, slots: seq<AttributeSlot>, i: nat)
    requires i <= |attrs| && i <= |slots|
    ensures |BoundPrefix(attrs, slots, i)| == |set j | 0 <= j < i && slots[j].Some?|
  {
    if i > 0 {
      BoundPrefixCount(attrs, slots, i - 1);
      var before := set j | 0 <= j < i - 1 && slots[j].Some?;
      var after := set j | 0 <= j < i && slots[j].Some?;
      if slots[i - 1].Some? {
        assert after == before + {i - 1};
      } else {
        assert after == before;
      }
    }
  }

  /** The packed names of a prefix of `bs` are a prefix of those of `bs`. */
  lemma {:induction false} PackNamesPrefix(bs: seq<BoundAttribute>, j: nat)
    requires j <= |bs|
    ensures PackNames(bs[..j]) <= PackNames(bs)
    decreases |bs|
  {
    if j < |bs| {
      var init := bs[..|bs| - 1];
      PackNamesPrefix(init, j);
      assert init[..j] == bs[..j];
    } else {
      assert bs[..j] == bs;
    }
  }

  /** Adding one attribute appends its name and a NUL byte. */
  lemma PackNamesSnoc(bs: seq<BoundAttribute>, b: BoundAttribute)
    ensures PackNames(bs + [b]) == PackNames(bs) + b.attr.name + [0]
  {
    assert (bs + [b])[..|bs|] == bs;
  }

  /** Where the `k`th name sits: at the offset the earlier names take up,
      followed by its NUL terminator, inside the packed names. */
  lemma PackedNameAt(bs: seq<BoundAttribute>, k: nat)
    requires k < |bs|
    ensures var p := |PackNames(bs[..k])|; var name := bs[k].attr.name;
      && p + |name| < |PackNames(bs)|
      && PackNames(bs)[p..p + |name|] == name
      && PackNames(bs)[p + |name|] == 0
  {
    PackNamesPrefix(bs, k + 1);
    assert bs[..k + 1][..k] == bs[..k];
    assert bs[..k + 1] == bs[..k] + [bs[k]];
    PackNamesSnoc(bs[..k], bs[k]);
  }

  /** The elements built so far are those of the bound attributes `bs`. */
  predicate EntriesMatch(layouts: seq<InputElementDesc>, bs: seq<BoundAttribute>, mapFormat: (Format, bool) -> Option<DxgiFormat>) {
    && |layouts| == |bs|
    && forall k :: 0 <= k < |bs| ==> Acceptable(bs[k], mapFormat) && layouts[k] == EntryAt(bs, k, mapFormat)
  }

  /** The character buffer holds `packed` followed by zeros. */
  predicate BufferHolds(buf: seq<u8>, packed: seq<u8>) {
    |packed| <= CHARBUF_SIZE && buf == packed + Zeros(CHARBUF_SIZE - |packed|)
  }

  lemma AppendEntry(layouts: seq<InputElementDesc>, bs: seq<BoundAttribute>, b: BoundAttribute,
                    mapFormat: (Format, bool) -> Option<DxgiFormat>)
    requires EntriesMatch(layouts, bs, mapFormat) && Acceptable(b, mapFormat)
    ensures EntriesMatch(layouts + [EntryFor(b, mapFormat(b.elem.format, false).value, |PackNames(bs)|)], bs + [b], mapFormat)
  {
    var layouts' := layouts + [EntryFor(b, mapFormat(b.elem.format, false).value, |PackNames(bs)|)];
    forall k | 0 <= k < |bs| + 1
      ensures Acceptable((bs + [b])[k], mapFormat) && layouts'[k] == EntryAt(bs + [b], k, mapFormat)
    {
      assert (bs + [b])[..k] == bs[..k];
    }
  }

  /** Writing the next byte of a name behind the packed names. */
  lemma WriteNameByte(packed: seq<u8>, name: seq<u8>, j: nat, m: nat)
    requires j < |name| && 1 <= m
    ensures (packed + name[..j] + Zeros(m))[|packed| + j := name[j]] == packed + name[..j + 1] + Zeros(m - 1)
  {
    var lhs := (packed + name[..j] + Zeros(m))[|packed| + j := name[j]];
    var rhs := packed + name[..j + 1] + Zeros(m - 1);
    assert |lhs| == |rhs|;
    forall t | 0 <= t < |lhs| ensures lhs[t] == rhs[t] {
      if t < |packed| {
      } else if t < |packed| + j + 1 {
        assert rhs[t] == name[..j + 1][t - |packed|];
      }
    }
  }

  /** After the whole name, the zero behind it is its NUL terminator. */
  lemma CloseName(packed: seq<u8>, name: seq<u8>, m: nat)
    requires 1 <= m
    ensures packed + name[..|name|] + Zeros(m) == (packed + name + [0]) + Zeros(m - 1)
  {
    assert name[..|name|] == name;
    var lhs := packed + name + Zeros(m);
    var rhs := (packed + name + [0]) + Zeros(m - 1);
    assert |lhs| == |rhs|;
    forall t | 0 <= t < |lhs| ensures lhs[t] == rhs[t] {
    }
  }

  /** One more visited pair: an unbound slot adds nothing; a bound one adds
      its attribute, whose name and NUL byte still fit the buffer. */
  lemma NextPair(attrs: seq<AttributeVar>, slots: seq<AttributeSlot>, i: nat)
    requires NamesFit(attrs, slots) && i < Visited(attrs, slots)
    ensures slots[i].None? ==> BoundPrefix(attrs, slots, i + 1) == BoundPrefix(attrs, slots, i)
    ensures slots[i].Some? ==>
      && BoundPrefix(attrs, slots, i + 1) == BoundPrefix(attrs, slots, i) + [BoundAt(attrs, slots, i)]
      && PackNames(BoundPrefix(attrs, slots, i + 1)) == PackNames(BoundPrefix(attrs, slots, i)) + attrs[i].name + [0]
      && |PackNames(BoundPrefix(attrs, slots, i))| + |attrs[i].name| + 1 <= CHARBUF_SIZE
  {
    var bs := BoundPrefix(attrs, slots, i);
    BoundPrefixGrows(attrs, slots, i + 1, Visited(attrs, slots));
    if slots[i].Some? {
      var b := BoundAt(attrs, slots, i);
      assert BoundPrefix(attrs, slots, i + 1) == bs + [b];
      PackNamesSnoc(bs, b);
      var all := Bound(attrs, slots);
      assert all[..|bs| + 1] == bs + [b];
      PackNamesPrefix(all, |bs| + 1);
    } else {
      assert BoundPrefix(attrs, slots, i + 1) == bs;
    }
  }

  /** Elements and buffer for all visited attributes are the layout. */
  lemma EntriesMatchSpec(attrs: seq<AttributeVar>, slots: seq<AttributeSlot>, layouts: seq<InputElementDesc>, buf: seq<u8>,
                         mapFormat: (Format, bool) -> Option<DxgiFormat>)
    requires NamesFit(attrs, slots)
    requires EntriesMatch(layouts, Bound(attrs, slots), mapFormat)
    requires BufferHolds(buf, PackNames(Bound(attrs, slots)))
    ensures LayoutSpec(attrs, slots, mapFormat) == Some(InputLayout(layouts, buf))
  {
    var bs := Bound(attrs, slots);
    assert forall k :: 0 <= k < |bs| ==> Acceptable(bs[k], mapFormat);
    assert layouts == seq(|bs|, k requires 0 <= k < |bs| => EntryAt(bs, k, mapFormat));
  }

  /** One refused attribute among the visited makes the layout fail. */
  lemma RefusedEntry(attrs: seq<AttributeVar>, slots: seq<AttributeSlot>, i: nat, mapFormat: (Format, bool) -> Option<DxgiFormat>)
    requires NamesFit(attrs, slots)
    requires i < Visited(attrs, slots) && slots[i].Some? && !Acceptable(BoundAt(attrs, slots, i), mapFormat)
    ensures LayoutSpec(attrs, slots, mapFormat).None?
  {
    BoundPrefixMembers(attrs, slots, Visited(attrs, slots));
  }

  /** The inner copy of lines 495-497: the name's bytes go to the buffer
      from `charpos` on, stopping at the end of the buffer; the NUL behind
      them is the zero already there. */
  method CopyName(charbuf: array<u8>, charpos: nat, name: seq<u8>, ghost packed: seq<u8>)
    requires charbuf.Length == CHARBUF_SIZE
    requires charpos == |packed| && charpos + |name| + 1 <= CHARBUF_SIZE
    requires BufferHolds(charbuf[..], packed)
    modifies charbuf
    ensures BufferHolds(charbuf[..], packed + name + [0])
  {
    ghost var m := CHARBUF_SIZE - charpos;
    var j := 0;
    assert charbuf[..] == packed + name[..0] + Zeros(m);
    while j < |name| && charpos + j < CHARBUF_SIZE
      invariant 0 <= j <= |name|
      invariant charbuf[..] == packed + name[..j] + Zeros(m - j)
    {
      WriteNameByte(packed, name, j, m - j);
      charbuf[charpos + j] := name[j];
      j := j + 1;
    }
    CloseName(packed, name, m - |name|);
  }

  /** The step for an accepted attribute (lines 478-498): push its element,
      naming the buffer at `charpos`, and copy its name there. */
  method PushElement(layouts: seq<InputElementDesc>, charbuf: array<u8>, charpos: nat, b: BoundAttribute, fm: DxgiFormat,
                     ghost bs: seq<BoundAttribute>, ghost mapFormat: (Format, bool) -> Option<DxgiFormat>)
    returns (layouts': seq<InputElementDesc>)
    requires EntriesMatch(layouts, bs, mapFormat) && Acceptable(b, mapFormat) && fm == mapFormat(b.elem.format, false).value
    requires charbuf.Length == CHARBUF_SIZE && charpos == |PackNames(bs)| && charpos + |b.attr.name| + 1 <= CHARBUF_SIZE
    requires BufferHolds(charbuf[..], PackNames(bs))
    modifies charbuf
    ensures EntriesMatch(layouts', bs + [b], mapFormat)
    ensures BufferHolds(charbuf[..], PackNames(bs + [b]))
  {
    AppendEntry(layouts, bs, b, mapFormat);
    layouts' := layouts + [InputElementDesc(charpos, 0, fm, b.attr.slot, b.elem.offset, ClassOf(b.rate), b.rate)];
    CopyName(charbuf, charpos, b.attr.name, PackNames(bs));
    PackNamesSnoc(bs, b);
  }

  /** The state of the loop after the first `i` pairs: the elements and
      the buffer of the attributes bound among them, and `charpos` just
      behind their names. */
  predicate LoopState(attrs: seq<AttributeVar>, slots: seq<AttributeSlot>, mapFormat: (Format, bool) -> Option<DxgiFormat>,
                      i: nat, layouts: seq<InputElementDesc>, buf: seq<u8>, charpos: nat)
    requires i <= Visited(attrs, slots)
  {
    && EntriesMatch(layouts, BoundPrefix(attrs, slots, i), mapFormat)
    && charpos == |PackNames(BoundPrefix(attrs, slots, i))|
    && BufferHolds(buf, PackNames(BoundPrefix(attrs, slots, i)))
  }

  /** One turn of the loop of lines 464-498 on pair `i`: an unbound slot is
      skipped; a bound one is refused for an odd offset, then for a format
      without a DXGI counterpart, and otherwise pushes its element and
      copies its name into the buffer at `charpos`, which then advances
      past the name and its NUL byte. */
  method VisitPair(attrs: seq<AttributeVar>, slots: seq<AttributeSlot>, mapFormat: (Format, bool) -> Option<DxgiFormat>,
                   i: nat, layouts: seq<InputElementDesc>, charbuf: array<u8>, charpos: nat)
    returns (accepted: bool, layouts': seq<InputElementDesc>, charpos': nat)
    requires NamesFit(attrs, slots) && i < Visited(attrs, slots)
    requires charbuf.Length == CHARBUF_SIZE
    requires LoopState(attrs, slots, mapFormat, i, layouts, charbuf[..], charpos)
    modifies charbuf
    ensures accepted ==> LoopState(attrs, slots, mapFormat, i + 1, layouts', charbuf[..], charpos')
    ensures !accepted ==> LayoutSpec(attrs, slots, mapFormat).None?
  {
    NextPair(attrs, slots, i);
    if slots[i].None? {
      return true, layouts, charpos;
    }
    var (elem, irate) := slots[i].value;
    if elem.offset % 2 != 0 {
      RefusedEntry(attrs, slots, i, mapFormat);
      return false, layouts, charpos;
    }
    if mapFormat(elem.format, false).None? {
      RefusedEntry(attrs, slots, i, mapFormat);
      return false, layouts, charpos;
    }
    var fm := mapFormat(elem.format, false).value;
    layouts' := PushElement(layouts, charbuf, charpos, BoundAttribute(attrs[i], elem, irate), fm,
                            BoundPrefix(attrs, slots, i), mapFormat);
    charpos' := charpos + |attrs[i].name| + 1;
    accepted := true;
  }

  /** The loop of `create_pipeline_state_raw` over the pairs of attributes
      and slots, from an all-zero character buffer. The name copy stops at
      the end of the buffer, as the source's zip does. */
  method BuildInputLayout(attrs: seq<AttributeVar>, slots: seq<AttributeSlot>, mapFormat: (Format, bool) -> Option<DxgiFormat>)
    returns (r: Option<InputLayout>)
    requires NamesFit(attrs, slots)
    ensures r == LayoutSpec(attrs, slots, mapFormat)
  {
    var n := Visited(attrs, slots);
    var layouts: seq<InputElementDesc> := [];
    var charbuf := new u8[CHARBUF_SIZE](_ => 0);
    var charpos: nat := 0;
    var i := 0;
    assert charbuf[..] == Zeros(CHARBUF_SIZE);
    while i < n
      invariant 0 <= i <= n
      invariant LoopState(attrs, slots, mapFormat, i, layouts, charbuf[..], charpos)
    {
      var accepted;
      accepted, layouts, charpos := VisitPair(attrs, slots, mapFormat, i, layouts, charbuf, charpos);
      if !accepted {
        return None;
      }
      i := i + 1;
    }
    var buf := charbuf[..];
    EntriesMatchSpec(attrs, slots, layouts, buf, mapFormat);
    r := Some(InputLayout(layouts, buf));
  }

  // Properties of the layout, stated on the visited positions.

  /** Assembly fails exactly when some visited, bound slot has an odd
      offset or a format without a DXGI counterpart; unbound slots and the
      pairs beyond the shorter list play no part. */
  lemma LayoutFailure(attrs: seq<AttributeVar>, slots: seq<AttributeSlot>, mapFormat: (Format, bool) -> Option<DxgiFormat>)
    requires NamesFit(attrs, slots)
    ensures LayoutSpec(attrs, slots, mapFormat).None? <==>
      exists j :: 0 <= j < Visited(attrs, slots) && slots[j].Some? &&
        (slots[j].value.0.offset % 2 != 0 || mapFormat(slots[j].value.0.format, false).None?)
  {
    var n := Visited(attrs, slots);
    var bs := Bound(attrs, slots);
    BoundPrefixOrigins(attrs, slots, n);
    if LayoutSpec(attrs, slots, mapFormat).None? {
      var k :| 0 <= k < |bs| && !Acceptable(bs[k], mapFormat);
      assert FromSlot(attrs, slots, n, bs[k]);
      var j :| 0 <= j < n && slots[j].Some? && bs[k] == BoundAt(attrs, slots, j);
      assert slots[j].value.0 == bs[k].elem;
    }
    if exists j :: 0 <= j < n && slots[j].Some? &&
        (slots[j].value.0.offset % 2 != 0 || mapFormat(slots[j].value.0.format, false).None?) {
      var j :| 0 <= j < n && slots[j].Some? &&
        (slots[j].value.0.offset % 2 != 0 || mapFormat(slots[j].value.0.format, false).None?);
      RefusedEntry(attrs, slots, j, mapFormat);
    }
  }

  /** One element per visited bound slot, in order, each copying its
      attribute's slot, offset and instance rate, per-vertex exactly when
      the rate is 0, and naming the NUL-terminated copy of its attribute's
      name in the buffer. */
  lemma LayoutEntries(attrs: seq<AttributeVar>, slots: seq<AttributeSlot>, mapFormat: (Format, bool) -> Option<DxgiFormat>, k: nat)
    requires NamesFit(attrs, slots)
    requires LayoutSpec(attrs, slots, mapFormat).Some?
    ensures var layout := LayoutSpec(attrs, slots, mapFormat).value;
      |layout.elements| == |set j | 0 <= j < Visited(attrs, slots) && slots[j].Some?|
    ensures var layout := LayoutSpec(attrs, slots, mapFormat).value; var bs := Bound(attrs, slots);
      k < |layout.elements| ==>
        var e := layout.elements[k]; var name := bs[k].attr.name;
        && Some(e.format) == mapFormat(bs[k].elem.format, false)
        && e.inputSlot == bs[k].attr.slot
        && e.alignedByteOffset == bs[k].elem.offset && e.alignedByteOffset % 2 == 0
        && e.instanceDataStepRate == bs[k].rate
        && (e.inputSlotClass == PerVertexData <==> e.instanceDataStepRate == 0)
        && e.semanticIndex == 0
        && e.semanticName + |name| < CHARBUF_SIZE
        && layout.charbuf[e.semanticName..e.semanticName + |name|] == name
        && layout.charbuf[e.semanticName + |name|] == 0
  {
    var layout := LayoutSpec(attrs, slots, mapFormat).value;
    var bs := Bound(attrs, slots);
    BoundPrefixCount(attrs, slots, Visited(attrs, slots));
    if k < |layout.elements| {
      PackedNameAt(bs, k);
      var p := |PackNames(bs[..k])|;
      var name := bs[k].attr.name;
      assert layout.charbuf[p..p + |name|] == PackNames(bs)[p..p + |name|];
    }
  }
}
