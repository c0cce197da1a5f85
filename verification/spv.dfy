/**
 * The native engine's vocabulary, as produced by the binding generator from the
 * engine's headers. Only the shapes the wrapper relies on are modelled: the
 * built-in enumeration (which carries the extra sentinel `Max`), the base-type tags
 * of a reflected type, and opaque tags compared only for equality or order.
 */
module Spv {

  /** `spv::BuiltIn`: every public built-in plus the sentinel `Max` ("no built-in"). */
  datatype BuiltIn =
    | Position
    | PointSize
    | ClipDistance
    | CullDistance
    | VertexId
    | InstanceId
    | PrimitiveId
    | InvocationId
    | Layer
    | ViewportIndex
    | TessLevelOuter
    | TessLevelInner
    | TessCoord
    | PatchVertices
    | FragCoord
    | PointCoord
    | FrontFacing
    | SampleId
    | SamplePosition
    | SampleMask
    | FragDepth
    | HelperInvocation
    | NumWorkgroups
    | WorkgroupSize
    | WorkgroupId
    | LocalInvocationId
    | GlobalInvocationId
    | LocalInvocationIndex
    | WorkDim
    | GlobalSize
    | EnqueuedWorkgroupSize
    | GlobalOffset
    | GlobalLinearId
    | SubgroupSize
    | SubgroupMaxSize
    | NumSubgroups
    | NumEnqueuedSubgroups
    | SubgroupId
    | SubgroupLocalInvocationId
    | VertexIndex
    | InstanceIndex
    | SubgroupEqMask
    | SubgroupGeMask
    | SubgroupGtMask
    | SubgroupLeMask
    | SubgroupLtMask
    | BaseVertex
    | BaseInstance
    | DrawIndex
    | PrimitiveShadingRateKhr
    | DeviceIndex
    | ViewIndex
    | ShadingRateKhr
    | BaryCoordNoPerspAmd
    | BaryCoordNoPerspCentroidAmd
    | BaryCoordNoPerspSampleAmd
    | BaryCoordSmoothAmd
    | BaryCoordSmoothCentroidAmd
    | BaryCoordSmoothSampleAmd
    | BaryCoordPullModelAmd
    | FragStencilRefExt
    | ViewportMaskNv
    | SecondaryPositionNv
    | SecondaryViewportMaskNv
    | PositionPerViewNv
    | ViewportMaskPerViewNv
    | FullyCoveredExt
    | TaskCountNv
    | PrimitiveCountNv
    | PrimitiveIndicesNv
    | ClipDistancePerViewNv
    | CullDistancePerViewNv
    | LayerPerViewNv
    | MeshViewCountNv
    | MeshViewIndicesNv
    | BaryCoordKhr
    | BaryCoordNoPerspKhr
    | FragSizeExt
    | FragInvocationCountExt
    | PrimitivePointIndicesExt
    | PrimitiveLineIndicesExt
    | PrimitiveTriangleIndicesExt
    | CullPrimitiveExt
    | LaunchIdKhr
    | LaunchSizeKhr
    | WorldRayOriginKhr
    | WorldRayDirectionKhr
    | ObjectRayOriginKhr
    | ObjectRayDirectionKhr
    | RayTminKhr
    | RayTmaxKhr
    | InstanceCustomIndexKhr
    | ObjectToWorldKhr
    | WorldToObjectKhr
    | HitTnv
    | HitKindKhr
    | CurrentRayTimeNv
    | IncomingRayFlagsKhr
    | RayGeometryIndexKhr
    | WarpsPerSmnv
    | SmCountNv
    | WarpIdnv
    | Smidnv
    | CullMaskKhr
    | Max

  /** `spirv_cross::SPIRType_BaseType`: the tag of a reflected type. */
  datatype BaseType =
    | Unknown | Void | Boolean | SByte | UByte | Short | UShort | Int | UInt
    | Int64 | UInt64 | AtomicCounter | Half | Float | Double | Struct | Image
    | SampledImage | Sampler | AccelerationStructure | RayQuery | ControlPointArray
    | Interpolant | Char

  /**
   * `spv::ExecutionModel`. Its derived order follows the declaration order of the
   * generated enum, which is not part of this model: the ordinal stands for it.
   */
  datatype ExecutionModel = ExecutionModel(ordinal: nat)

  /** `spv::Decoration`, `spv::Dim`, `spv::ImageFormat`: opaque tags. */
  datatype Decoration = Decoration(code: nat)
  datatype Dim = Dim(code: nat)
  datatype ImageFormat = ImageFormat(code: nat)
}
