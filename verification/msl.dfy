/**
 * The Metal Shading Language target: its option record and defaults, the override keys
 * and their derived orders, the translation of options into native records, and the
 * per-compiler `TargetData` tables that `set_compiler_options` refills.
 */
module Msl {
  import opened Common
  import Spv
  import Spirv
  import opened Native
  import opened Ordered

  // ---------------------------------------------------------------------------------
  // Override keys and their derived `Ord`
  // ---------------------------------------------------------------------------------

  /** `VertexAttributeLocation(u32)`. */
  datatype VertexAttributeLocation = VertexAttributeLocation(location: u32)

  /** `ResourceBindingLocation`: its fields in declaration order. */
  datatype ResourceBindingLocation = ResourceBindingLocation(stage: Spv.ExecutionModel, descSet: u32, binding: u32)

  /** `SamplerLocation`. */
  datatype SamplerLocation = SamplerLocation(descSet: u32, binding: u32)

  /** The derived order of `VertexAttributeLocation`: by its one field. */
  predicate VertexAttributeLess(a: VertexAttributeLocation, b: VertexAttributeLocation)
  {
    a.location < b.location
  }

  /**
   * The derived order of `ResourceBindingLocation`: lexicographic on stage, descriptor
   * set, binding; stages compare by their position in the generated enumeration.
   */
  predicate ResourceBindingLess(a: ResourceBindingLocation, b: ResourceBindingLocation)
  {
    || a.stage.ordinal < b.stage.ordinal
    || (a.stage.ordinal == b.stage.ordinal
        && (a.descSet < b.descSet || (a.descSet == b.descSet && a.binding < b.binding)))
  }

  /** The derived order of `SamplerLocation`: lexicographic on descriptor set, binding. */
  predicate SamplerLess(a: SamplerLocation, b: SamplerLocation)
  {
    a.descSet < b.descSet || (a.descSet == b.descSet && a.binding < b.binding)
  }

  lemma VertexAttributeOrder()
    ensures StrictTotalOrder(VertexAttributeLess)
  {
  }

  lemma ResourceBindingOrder()
    ensures StrictTotalOrder(ResourceBindingLess)
  {
  }

  lemma SamplerOrder()
    ensures StrictTotalOrder(SamplerLess)
  {
  }

  // ---------------------------------------------------------------------------------
  // Override values
  // ---------------------------------------------------------------------------------

  /** `VertexAttribute`: format and rate are generated enumerations, kept as tags. */
  datatype VertexAttribute = VertexAttribute(
    bufferId: u32, format: Tag, rate: Tag, builtIn: Option<Spirv.BuiltIn>, vecsize: u32)

  /** `ResourceBinding`. */
  datatype ResourceBinding = ResourceBinding(
    baseType: Spv.BaseType, bufferId: u32, textureId: u32, samplerId: u32, count: u32)

  /** `LodBase16`: a level of detail in sixteenths. */
  datatype LodBase16 = LodBase16(sixteenths: u8)

  /** `LodBase16::ZERO`. */
  const LOD_ZERO: LodBase16 := LodBase16(0)

  /** `LodBase16::MAX`: all bits of the byte set. */
  const LOD_MAX: LodBase16 := LodBase16((!(0 as bv8)) as int)

  /** `SamplerData`: the sampler settings, the generated enumerations kept as tags. */
  datatype SamplerData = SamplerData(
    coord: Tag, minFilter: Tag, magFilter: Tag, mipFilter: Tag,
    sAddress: Tag, tAddress: Tag, rAddress: Tag,
    compareFunc: SamplerCompareFunc, borderColor: Tag,
    lodClampMin: LodBase16, lodClampMax: LodBase16, maxAnisotropy: i32,
    planes: u32, resolution: Tag, chromaFilter: Tag,
    xChromaOffset: Tag, yChromaOffset: Tag, swizzle: Swizzle,
    ycbcrConversionEnable: bool, ycbcrModel: Tag, ycbcrRange: Tag, bpc: u32)

  /** The two `LodBase16` constants are the least and the greatest level. */
  lemma LodBounds(l: LodBase16)
    ensures LOD_ZERO.sixteenths <= l.sixteenths <= LOD_MAX.sixteenths
    ensures LOD_MAX.sixteenths == 255
  {
  }

  // ---------------------------------------------------------------------------------
  // Translation into native records
  // ---------------------------------------------------------------------------------

  /** One entry of `resource_binding_overrides` as the native record. */
  function ResourceBindingRecord(loc: ResourceBindingLocation, res: ResourceBinding): (r: MslResourceBinding)
    ensures ResourceBindingKey(r) == loc
    ensures r.basetype == res.baseType && r.count == res.count
    ensures r.mslBuffer == res.bufferId && r.mslTexture == res.textureId && r.mslSampler == res.samplerId
  {
    MslResourceBinding(loc.stage, res.baseType, loc.descSet, loc.binding,
                       res.bufferId, res.textureId, res.samplerId, res.count)
  }

  /** The key a native resource binding was made from. */
  function ResourceBindingKey(r: MslResourceBinding): ResourceBindingLocation
  {
    ResourceBindingLocation(r.stage, r.descSet, r.binding)
  }

  /**
   * One entry of `vertex_attribute_overrides` as the native record: component 0, the
   * built-in through `built_in_as_raw`, and the buffer id not carried over.
   */
  function VertexAttributeRecord(loc: VertexAttributeLocation, vat: VertexAttribute): (r: MslShaderInterfaceVariable)
    ensures r.location == loc.location && r.component == 0
    ensures r.format == vat.format && r.rate == vat.rate && r.vecsize == vat.vecsize
    ensures r.builtin == Spirv.BuiltInAsRaw(vat.builtIn)
  {
    MslShaderInterfaceVariable(loc.location, 0, vat.format, Spirv.BuiltInAsRaw(vat.builtIn), vat.vecsize, vat.rate)
  }

  /** The native built-in of a vertex attribute is the sentinel exactly when it has none, and decodes back otherwise. */
  lemma VertexAttributeBuiltIn(loc: VertexAttributeLocation, vat: VertexAttribute)
    ensures var r := VertexAttributeRecord(loc, vat);
      && (r.builtin == Spv.Max <==> vat.builtIn.None?)
      && (vat.builtIn.Some? ==> r.builtin != Spv.Max && Spirv.BuiltInFromRaw(r.builtin) == vat.builtIn.value)
  {
    Spirv.BuiltInAsRawSentinel(vat.builtIn);
    if vat.builtIn.Some? {
      Spirv.BuiltInRoundTrip(vat.builtIn.value);
    }
  }

  /** The key a native vertex attribute was made from. */
  function VertexAttributeKey(r: MslShaderInterfaceVariable): VertexAttributeLocation
  {
    VertexAttributeLocation(r.location)
  }

  /**
   * The native constant sampler: settings copied, LOD clamps in sixteenths, and the
   * three enable flags derived from the settings.
   */
  function ConstexprSampler(data: SamplerData): (s: MslConstexprSampler)
    ensures s.compareEnable <==> data.compareFunc != Always
    ensures s.lodClampEnable <==> data.lodClampMin != LOD_ZERO || data.lodClampMax != LOD_MAX
    ensures s.anisotropyEnable <==> data.maxAnisotropy != 0
    ensures s.lodClampMinSixteenths == data.lodClampMin.sixteenths
    ensures s.lodClampMaxSixteenths == data.lodClampMax.sixteenths
    ensures s.compareFunc == data.compareFunc && s.maxAnisotropy == data.maxAnisotropy
    ensures s.coord == data.coord && s.borderColor == data.borderColor
    ensures s.minFilter == data.minFilter && s.magFilter == data.magFilter && s.mipFilter == data.mipFilter
    ensures s.sAddress == data.sAddress && s.tAddress == data.tAddress && s.rAddress == data.rAddress
    ensures s.bpc == data.bpc && s.planes == data.planes && s.resolution == data.resolution
    ensures s.chromaFilter == data.chromaFilter && s.swizzle == data.swizzle
    ensures s.xChromaOffset == data.xChromaOffset && s.yChromaOffset == data.yChromaOffset
    ensures s.ycbcrConversionEnable == data.ycbcrConversionEnable
    ensures s.ycbcrModel == data.ycbcrModel && s.ycbcrRange == data.ycbcrRange
  {
    MslConstexprSampler(
      data.coord, data.minFilter, data.magFilter, data.mipFilter,
      data.sAddress, data.tAddress, data.rAddress,
      data.compareFunc, data.borderColor,
      data.lodClampMin.sixteenths, data.lodClampMax.sixteenths,
      data.maxAnisotropy,
      data.compareFunc != Always,
      data.lodClampMin != LOD_ZERO || data.lodClampMax != LOD_MAX,
      data.maxAnisotropy != 0,
      data.bpc, data.chromaFilter, data.planes, data.resolution, data.swizzle,
      data.xChromaOffset, data.yChromaOffset,
      data.ycbcrConversionEnable, data.ycbcrModel, data.ycbcrRange)
  }

  /** A sampler with the default clamps and no comparison or anisotropy enables none of the three. */
  lemma ConstexprSamplerFlagsOff(data: SamplerData)
    requires data.compareFunc == Always && data.maxAnisotropy == 0
    requires data.lodClampMin.sixteenths == 0 && data.lodClampMax.sixteenths == 255
    ensures var s := ConstexprSampler(data); !s.compareEnable && !s.lodClampEnable && !s.anisotropyEnable
  {
  }

  /** One entry of `const_samplers` as the native mapping. */
  function ConstSamplerRecord(loc: SamplerLocation, data: SamplerData): (r: MslConstSamplerMapping)
    ensures ConstSamplerKey(r) == loc && r.sampler == ConstexprSampler(data)
  {
    MslConstSamplerMapping(loc.descSet, loc.binding, ConstexprSampler(data))
  }

  /** The key a native sampler mapping was made from. */
  function ConstSamplerKey(r: MslConstSamplerMapping): SamplerLocation
  {
    SamplerLocation(r.descSet, r.binding)
  }

  // ---------------------------------------------------------------------------------
  // Platform, version and the option record
  // ---------------------------------------------------------------------------------

  /** `Platform`, with its `repr(u8)` discriminants. */
  datatype Platform = IOS | MacOS
  {
    /** `options.platform as _`: the discriminant, which is 0 for iOS alone and at most 1. */
    function AsRaw(): (r: u8)
      ensures r <= 1
      ensures r == 0 <==> this == IOS
    {
      match this
      case IOS => 0
      case MacOS => 1
    }
  }

  /** Distinct platforms reach the native record as distinct discriminants. */
  lemma PlatformAsRawInjective(a: Platform, b: Platform)
    ensures a.AsRaw() == b.AsRaw() <==> a == b
  {
  }

  /** `Version`, in declaration order. */
  datatype Version = V1_0 | V1_1 | V1_2 | V2_0 | V2_1 | V2_2 | V2_3
  {
    /** Major and minor number spelled by the variant name. */
    function Major(): nat
    {
      match this
      case V1_0 | V1_1 | V1_2 => 1
      case _ => 2
    }

    function Minor(): nat
    {
      match this
      case V1_0 | V2_0 => 0
      case V1_1 | V2_1 => 1
      case V1_2 | V2_2 => 2
      case V2_3 => 3
    }

    /** Position in declaration order. */
    function Ordinal(): nat
    {
      match this
      case V1_0 => 0
      case V1_1 => 1
      case V1_2 => 2
      case V2_0 => 3
      case V2_1 => 4
      case V2_2 => 5
      case V2_3 => 6
    }

    /** `Version::as_raw`. */
    function AsRaw(): (r: u32)
      ensures r == 10000 * Major() + 100 * Minor()
    {
      match this
      case V1_0 => 10000
      case V1_1 => 10100
      case V1_2 => 10200
      case V2_0 => 20000
      case V2_1 => 20100
      case V2_2 => 20200
      case V2_3 => 20300
    }
  }

  /** The raw encoding increases strictly with the declaration order, so it is injective. */
  lemma VersionAsRawMonotone(a: Version, b: Version)
    ensures a.Ordinal() < b.Ordinal() <==> a.AsRaw() < b.AsRaw()
    ensures a.AsRaw() == b.AsRaw() ==> a == b
  {
  }

  /** `CompilerVertexOptions`. */
  datatype CompilerVertexOptions = CompilerVertexOptions(invertY: bool, transformClipSpace: bool)

  /** `CompilerOptions`; the entry point, when given, is a name and an execution model. */
  datatype CompilerOptions = CompilerOptions(
    platform: Platform,
    version: Version,
    vertex: CompilerVertexOptions,
    swizzleBufferIndex: u32,
    indirectParamsBufferIndex: u32,
    outputBufferIndex: u32,
    patchOutputBufferIndex: u32,
    tessellationFactorBufferIndex: u32,
    bufferSizeBufferIndex: u32,
    enablePointSizeBuiltin: bool,
    enableRasterization: bool,
    captureOutputToBuffer: bool,
    swizzleTextureSamples: bool,
    tessellationDomainOriginLowerLeft: bool,
    enableArgumentBuffers: bool,
    padFragmentOutputComponents: bool,
    resourceBindingOverrides: map<ResourceBindingLocation, ResourceBinding>,
    vertexAttributeOverrides: map<VertexAttributeLocation, VertexAttribute>,
    constSamplers: map<SamplerLocation, SamplerData>,
    forceNativeArrays: bool,
    forceZeroInitializedVariables: bool,
    forceActiveArgumentBufferResources: bool,
    entryPoint: Option<(string, Spv.ExecutionModel)>)
  {
    /** The six reserved buffer indices, in declaration order. */
    function BufferIndices(): seq<u32>
    {
      [swizzleBufferIndex, indirectParamsBufferIndex, outputBufferIndex,
       patchOutputBufferIndex, tessellationFactorBufferIndex, bufferSizeBufferIndex]
    }
  }

  /** `CompilerOptions::default()`. */
  function DefaultOptions(): (o: CompilerOptions)
    ensures o.BufferIndices() == [30, 29, 28, 27, 26, 25]
    ensures forall i, j :: 0 <= i < j < 6 ==> o.BufferIndices()[i] != o.BufferIndices()[j]
    ensures o.platform == MacOS && o.version == V1_2
    ensures o.vertex == CompilerVertexOptions(false, false)
    ensures o.enablePointSizeBuiltin && o.enableRasterization
    ensures !o.captureOutputToBuffer && !o.swizzleTextureSamples && !o.tessellationDomainOriginLowerLeft
    ensures !o.enableArgumentBuffers && !o.padFragmentOutputComponents
    ensures !o.forceNativeArrays && !o.forceZeroInitializedVariables && !o.forceActiveArgumentBufferResources
    ensures o.resourceBindingOverrides == map[] && o.vertexAttributeOverrides == map[] && o.constSamplers == map[]
    ensures o.entryPoint.None?
  {
    CompilerOptions(
      MacOS, V1_2, CompilerVertexOptions(false, false),
      30, 29, 28, 27, 26, 25,
      true, true, false, false, false, false, false,
      map[], map[], map[],
      false, false, false,
      None)
  }

  /** The native option record `set_compiler_options` builds from the public one. */
  function RawOptions(o: CompilerOptions): (r: ScMslCompilerOptions)
    ensures r.disableRasterization <==> !o.enableRasterization
    ensures r.version == o.version.AsRaw() && r.platform == o.platform.AsRaw()
    ensures [r.swizzleBufferIndex, r.indirectParamsBufferIndex, r.shaderOutputBufferIndex,
             r.shaderPatchOutputBufferIndex, r.shaderTessFactorBufferIndex, r.bufferSizeBufferIndex]
            == o.BufferIndices()
    ensures r.vertexInvertY == o.vertex.invertY && r.vertexTransformClipSpace == o.vertex.transformClipSpace
    ensures r.enablePointSizeBuiltin == o.enablePointSizeBuiltin
    ensures r.captureOutputToBuffer == o.captureOutputToBuffer
    ensures r.swizzleTextureSamples == o.swizzleTextureSamples
    ensures r.tessDomainOriginLowerLeft == o.tessellationDomainOriginLowerLeft
    ensures r.argumentBuffers == o.enableArgumentBuffers
    ensures r.padFragmentOutputComponents == o.padFragmentOutputComponents
    ensures r.forceNativeArrays == o.forceNativeArrays
    ensures r.forceZeroInitializedVariables == o.forceZeroInitializedVariables
    ensures r.forceActiveArgumentBufferResources == o.forceActiveArgumentBufferResources
  {
    ScMslCompilerOptions(
      o.vertex.invertY,
      o.vertex.transformClipSpace,
      o.platform.AsRaw(),
      o.version.AsRaw(),
      o.enablePointSizeBuiltin,
      !o.enableRasterization,
      o.swizzleBufferIndex,
      o.indirectParamsBufferIndex,
      o.outputBufferIndex,
      o.patchOutputBufferIndex,
      o.tessellationFactorBufferIndex,
      o.bufferSizeBufferIndex,
      o.captureOutputToBuffer,
      o.swizzleTextureSamples,
      o.tessellationDomainOriginLowerLeft,
      o.enableArgumentBuffers,
      o.padFragmentOutputComponents,
      o.forceNativeArrays,
      o.forceZeroInitializedVariables,
      o.forceActiveArgumentBufferResources)
  }

  /** Options that differ only in the rasterization switch give different native records. */
  lemma RawOptionsRasterization(o: CompilerOptions)
    ensures RawOptions(o.(enableRasterization := !o.enableRasterization))
         == RawOptions(o).(disableRasterization := !RawOptions(o).disableRasterization)
  {
  }

  // ---------------------------------------------------------------------------------
  // The three tables
  // ---------------------------------------------------------------------------------

  /** The resource binding table for `m`: one native record per entry, ascending by location. */
  ghost function ResourceBindingTable(m: map<ResourceBindingLocation, ResourceBinding>): seq<MslResourceBinding>
  {
    ResourceBindingOrder();
    Table(m, ResourceBindingLess, ResourceBindingRecord)
  }

  /** The vertex attribute table for `m`. */
  ghost function VertexAttributeTable(m: map<VertexAttributeLocation, VertexAttribute>): seq<MslShaderInterfaceVariable>
  {
    VertexAttributeOrder();
    Table(m, VertexAttributeLess, VertexAttributeRecord)
  }

  /** The constant sampler table for `m`. */
  ghost function ConstSamplerTable(m: map<SamplerLocation, SamplerData>): seq<MslConstSamplerMapping>
  {
    SamplerOrder();
    Table(m, SamplerLess, ConstSamplerRecord)
  }

  /** The resource binding table holds exactly the entries of the map, ascending by location. */
  lemma ResourceBindingTableContents(m: map<ResourceBindingLocation, ResourceBinding>)
    ensures var t := ResourceBindingTable(m);
      && |t| == |m|
      && (forall i, j :: 0 <= i < j < |t| ==> ResourceBindingLess(ResourceBindingKey(t[i]), ResourceBindingKey(t[j])))
      && (forall i :: 0 <= i < |t| ==>
            ResourceBindingKey(t[i]) in m && t[i] == ResourceBindingRecord(ResourceBindingKey(t[i]), m[ResourceBindingKey(t[i])]))
      && (forall loc :: loc in m ==> exists i :: 0 <= i < |t| && ResourceBindingKey(t[i]) == loc)
  {
    ResourceBindingOrder();
    TableContents(m, ResourceBindingLess, ResourceBindingRecord, ResourceBindingKey);
  }

  /** The vertex attribute table holds exactly the entries of the map, ascending by location. */
  lemma VertexAttributeTableContents(m: map<VertexAttributeLocation, VertexAttribute>)
    ensures var t := VertexAttributeTable(m);
      && |t| == |m|
      && (forall i, j :: 0 <= i < j < |t| ==> t[i].location < t[j].location)
      && (forall i :: 0 <= i < |t| ==>
            VertexAttributeKey(t[i]) in m && t[i] == VertexAttributeRecord(VertexAttributeKey(t[i]), m[VertexAttributeKey(t[i])]))
      && (forall loc :: loc in m ==> exists i :: 0 <= i < |t| && t[i].location == loc.location)
  {
    VertexAttributeOrder();
    TableContents(m, VertexAttributeLess, VertexAttributeRecord, VertexAttributeKey);
  }

  /** The constant sampler table holds exactly the entries of the map, ascending by location. */
  lemma ConstSamplerTableContents(m: map<SamplerLocation, SamplerData>)
    ensures var t := ConstSamplerTable(m);
      && |t| == |m|
      && (forall i, j :: 0 <= i < j < |t| ==> SamplerLess(ConstSamplerKey(t[i]), ConstSamplerKey(t[j])))
      && (forall i :: 0 <= i < |t| ==>
            ConstSamplerKey(t[i]) in m && t[i].sampler == ConstexprSampler(m[ConstSamplerKey(t[i])]))
      && (forall loc :: loc in m ==> exists i :: 0 <= i < |t| && ConstSamplerKey(t[i]) == loc)
  {
    SamplerOrder();
    TableContents(m, SamplerLess, ConstSamplerRecord, ConstSamplerKey);
  }

  /** `TargetData`: the three tables handed to the native compiler on every compile. */
  class TargetData {
    var vertexAttributeOverrides: seq<MslShaderInterfaceVariable>
    var resourceBindingOverrides: seq<MslResourceBinding>
    var constSamplers: seq<MslConstSamplerMapping>

    /** The tables as `parse` creates them: all empty. */
    constructor ()
      ensures vertexAttributeOverrides == [] && resourceBindingOverrides == [] && constSamplers == []
    {
      vertexAttributeOverrides := [];
      resourceBindingOverrides := [];
      constSamplers := [];
    }

    /** Clear, then extend from the options' three maps, each in ascending key order. */
    method Refill(o: CompilerOptions)
      modifies this
      ensures resourceBindingOverrides == ResourceBindingTable(o.resourceBindingOverrides)
      ensures vertexAttributeOverrides == VertexAttributeTable(o.vertexAttributeOverrides)
      ensures constSamplers == ConstSamplerTable(o.constSamplers)
    {
      ResourceBindingOrder();
      VertexAttributeOrder();
      SamplerOrder();
      resourceBindingOverrides := [];
      var bindings := Flatten(o.resourceBindingOverrides, ResourceBindingLess, ResourceBindingRecord);
      resourceBindingOverrides := resourceBindingOverrides + bindings;
      vertexAttributeOverrides := [];
      var attributes := Flatten(o.vertexAttributeOverrides, VertexAttributeLess, VertexAttributeRecord);
      vertexAttributeOverrides := vertexAttributeOverrides + attributes;
      constSamplers := [];
      var samplers := Flatten(o.constSamplers, SamplerLess, ConstSamplerRecord);
      constSamplers := constSamplers + samplers;
    }
  }

  /** `ARGUMENT_BUFFER_BINDING`: every bit of a 32-bit word except the lowest two, 0xFFFF_FFFC. */
  const ARGUMENT_BUFFER_BINDING: u32 := (!(3 as bv32)) as int

  /** The argument-buffer binding is the largest 32-bit word that is a multiple of four. */
  lemma ArgumentBufferBindingValue()
    ensures ARGUMENT_BUFFER_BINDING == 0xFFFF_FFFC
    ensures ARGUMENT_BUFFER_BINDING % 4 == 0 && ARGUMENT_BUFFER_BINDING + 4 == 0x1_0000_0000
  {
  }
}
