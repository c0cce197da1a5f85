/**
 * The public reflection vocabulary (spirv.rs): the built-in enumeration and its
 * two-way correspondence with the native one, the owned records that queries
 * return, the reflected `Type`, and the borrowed `Module` view.
 */
module Spirv {
  import opened Common
  import Spv

  /** The public built-in enumeration: the native one without its sentinel. */
  datatype BuiltIn =
    | Position
    | PointSize
    | ClipDistance
    | CullDistance
    | VertexId
    | InstanceId
    | PrimitiveId
    | InvocationId
    | Layer
    | ViewportIndex
    | TessLevelOuter
    | TessLevelInner
    | TessCoord
    | PatchVertices
    | FragCoord
    | PointCoord
    | FrontFacing
    | SampleId
    | SamplePosition
    | SampleMask
    | FragDepth
    | HelperInvocation
    | NumWorkgroups
    | WorkgroupSize
    | WorkgroupId
    | LocalInvocationId
    | GlobalInvocationId
    | LocalInvocationIndex
    | WorkDim
    | GlobalSize
    | EnqueuedWorkgroupSize
    | GlobalOffset
    | GlobalLinearId
    | SubgroupSize
    | SubgroupMaxSize
    | NumSubgroups
    | NumEnqueuedSubgroups
    | SubgroupId
    | SubgroupLocalInvocationId
    | VertexIndex
    | InstanceIndex
    | SubgroupEqMask
    | SubgroupGeMask
    | SubgroupGtMask
    | SubgroupLeMask
    | SubgroupLtMask
    | BaseVertex
    | BaseInstance
    | DrawIndex
    | PrimitiveShadingRateKhr
    | DeviceIndex
    | ViewIndex
    | ShadingRateKhr
    | BaryCoordNoPerspAmd
    | BaryCoordNoPerspCentroidAmd
    | BaryCoordNoPerspSampleAmd
    | BaryCoordSmoothAmd
    | BaryCoordSmoothCentroidAmd
    | BaryCoordSmoothSampleAmd
    | BaryCoordPullModelAmd
    | FragStencilRefExt
    | ViewportMaskNv
    | SecondaryPositionNv
    | SecondaryViewportMaskNv
    | PositionPerViewNv
    | ViewportMaskPerViewNv
    | FullyCoveredExt
    | TaskCountNv
    | PrimitiveCountNv
    | PrimitiveIndicesNv
    | ClipDistancePerViewNv
    | CullDistancePerViewNv
    | LayerPerViewNv
    | MeshViewCountNv
    | MeshViewIndicesNv
    | BaryCoordKhr
    | BaryCoordNoPerspKhr
    | FragSizeExt
    | FragInvocationCountExt
    | PrimitivePointIndicesExt
    | PrimitiveLineIndicesExt
    | PrimitiveTriangleIndicesExt
    | CullPrimitiveExt
    | LaunchIdKhr
    | LaunchSizeKhr
    | WorldRayOriginKhr
    | WorldRayDirectionKhr
    | ObjectRayOriginKhr
    | ObjectRayDirectionKhr
    | RayTminKhr
    | RayTmaxKhr
    | InstanceCustomIndexKhr
    | ObjectToWorldKhr
    | WorldToObjectKhr
    | HitTnv
    | HitKindKhr
    | CurrentRayTimeNv
    | IncomingRayFlagsKhr
    | RayGeometryIndexKhr
    | WarpsPerSmnv
    | SmCountNv
    | WarpIdnv
    | Smidnv
    | CullMaskKhr

  /**
   * `BuiltIn::from_raw`: every native member except the sentinel maps to the public
   * member of the same name. The sentinel must never reach this path (the source
   * stops with `unreachable!`), so it is excluded by the precondition.
   */
  function BuiltInFromRaw(v: Spv.BuiltIn): BuiltIn
    requires v != Spv.Max
  {
    match v
    case Position => Position
    case PointSize => PointSize
    case ClipDistance => ClipDistance
    case CullDistance => CullDistance
    case VertexId => VertexId
    case InstanceId => InstanceId
    case PrimitiveId => PrimitiveId
    case InvocationId => InvocationId
    case Layer => Layer
    case ViewportIndex => ViewportIndex
    case TessLevelOuter => TessLevelOuter
    case TessLevelInner => TessLevelInner
    case TessCoord => TessCoord
    case PatchVertices => PatchVertices
    case FragCoord => FragCoord
    case PointCoord => PointCoord
    case FrontFacing => FrontFacing
    case SampleId => SampleId
    case SamplePosition => SamplePosition
    case SampleMask => SampleMask
    case FragDepth => FragDepth
    case HelperInvocation => HelperInvocation
    case NumWorkgroups => NumWorkgroups
    case WorkgroupSize => WorkgroupSize
    case WorkgroupId => WorkgroupId
    case LocalInvocationId => LocalInvocationId
    case GlobalInvocationId => GlobalInvocationId
    case LocalInvocationIndex => LocalInvocationIndex
    case WorkDim => WorkDim
    case GlobalSize => GlobalSize
    case EnqueuedWorkgroupSize => EnqueuedWorkgroupSize
    case GlobalOffset => GlobalOffset
    case GlobalLinearId => GlobalLinearId
    case SubgroupSize => SubgroupSize
    case SubgroupMaxSize => SubgroupMaxSize
    case NumSubgroups => NumSubgroups
    case NumEnqueuedSubgroups => NumEnqueuedSubgroups
    case SubgroupId => SubgroupId
    case SubgroupLocalInvocationId => SubgroupLocalInvocationId
    case VertexIndex => VertexIndex
    case InstanceIndex => InstanceIndex
    case SubgroupEqMask => SubgroupEqMask
    case SubgroupGeMask => SubgroupGeMask
    case SubgroupGtMask => SubgroupGtMask
    case SubgroupLeMask => SubgroupLeMask
    case SubgroupLtMask => SubgroupLtMask
    case BaseVertex => BaseVertex
    case BaseInstance => BaseInstance
    case DrawIndex => DrawIndex
    case PrimitiveShadingRateKhr => PrimitiveShadingRateKhr
    case DeviceIndex => DeviceIndex
    case ViewIndex => ViewIndex
    case ShadingRateKhr => ShadingRateKhr
    case BaryCoordNoPerspAmd => BaryCoordNoPerspAmd
    case BaryCoordNoPerspCentroidAmd => BaryCoordNoPerspCentroidAmd
    case BaryCoordNoPerspSampleAmd => BaryCoordNoPerspSampleAmd
    case BaryCoordSmoothAmd => BaryCoordSmoothAmd
    case BaryCoordSmoothCentroidAmd => BaryCoordSmoothCentroidAmd
    case BaryCoordSmoothSampleAmd => BaryCoordSmoothSampleAmd
    case BaryCoordPullModelAmd => BaryCoordPullModelAmd
    case FragStencilRefExt => FragStencilRefExt
    case ViewportMaskNv => ViewportMaskNv
    case SecondaryPositionNv => SecondaryPositionNv
    case SecondaryViewportMaskNv => SecondaryViewportMaskNv
    case PositionPerViewNv => PositionPerViewNv
    case ViewportMaskPerViewNv => ViewportMaskPerViewNv
    case FullyCoveredExt => FullyCoveredExt
    case TaskCountNv => TaskCountNv
    case PrimitiveCountNv => PrimitiveCountNv
    case PrimitiveIndicesNv => PrimitiveIndicesNv
    case ClipDistancePerViewNv => ClipDistancePerViewNv
    case CullDistancePerViewNv => CullDistancePerViewNv
    case LayerPerViewNv => LayerPerViewNv
    case MeshViewCountNv => MeshViewCountNv
    case MeshViewIndicesNv => MeshViewIndicesNv
    case BaryCoordKhr => BaryCoordKhr
    case BaryCoordNoPerspKhr => BaryCoordNoPerspKhr
    case FragSizeExt => FragSizeExt
    case FragInvocationCountExt => FragInvocationCountExt
    case PrimitivePointIndicesExt => PrimitivePointIndicesExt
    case PrimitiveLineIndicesExt => PrimitiveLineIndicesExt
    case PrimitiveTriangleIndicesExt => PrimitiveTriangleIndicesExt
    case CullPrimitiveExt => CullPrimitiveExt
    case LaunchIdKhr => LaunchIdKhr
    case LaunchSizeKhr => LaunchSizeKhr
    case WorldRayOriginKhr => WorldRayOriginKhr
    case WorldRayDirectionKhr => WorldRayDirectionKhr
    case ObjectRayOriginKhr => ObjectRayOriginKhr
    case ObjectRayDirectionKhr => ObjectRayDirectionKhr
    case RayTminKhr => RayTminKhr
    case RayTmaxKhr => RayTmaxKhr
    case InstanceCustomIndexKhr => InstanceCustomIndexKhr
    case ObjectToWorldKhr => ObjectToWorldKhr
    case WorldToObjectKhr => WorldToObjectKhr
    case HitTnv => HitTnv
    case HitKindKhr => HitKindKhr
    case CurrentRayTimeNv => CurrentRayTimeNv
    case IncomingRayFlagsKhr => IncomingRayFlagsKhr
    case RayGeometryIndexKhr => RayGeometryIndexKhr
    case WarpsPerSmnv => WarpsPerSmnv
    case SmCountNv => SmCountNv
    case WarpIdnv => WarpIdnv
    case Smidnv => Smidnv
    case CullMaskKhr => CullMaskKhr
  }

  /**
   * `built_in_as_raw`: an absent built-in becomes the native sentinel `Max`, a
   * present one the native member of the same name (`NativeBuiltIn`).
   */
  function BuiltInAsRaw(b: Option<BuiltIn>): (r: Spv.BuiltIn)
    ensures r == Spv.Max <==> b.None?
    ensures b.Some? ==> r != Spv.Max && BuiltInFromRaw(r) == b.value
  {
    match b
    case None => Spv.Max
    case Some(x) => PublicRoundTrip(x); NativeBuiltIn(x)
  }

  /** The arms of `built_in_as_raw` for a present built-in. */
  function NativeBuiltIn(b: BuiltIn): (r: Spv.BuiltIn)
    ensures r != Spv.Max
  {
    match b
    case Position => Spv.Position
    case PointSize => Spv.PointSize
    case ClipDistance => Spv.ClipDistance
    case CullDistance => Spv.CullDistance
    case VertexId => Spv.VertexId
    case InstanceId => Spv.InstanceId
    case PrimitiveId => Spv.PrimitiveId
    case InvocationId => Spv.InvocationId
    case Layer => Spv.Layer
    case ViewportIndex => Spv.ViewportIndex
    case TessLevelOuter => Spv.TessLevelOuter
    case TessLevelInner => Spv.TessLevelInner
    case TessCoord => Spv.TessCoord
    case PatchVertices => Spv.PatchVertices
    case FragCoord => Spv.FragCoord
    case PointCoord => Spv.PointCoord
    case FrontFacing => Spv.FrontFacing
    case SampleId => Spv.SampleId
    case SamplePosition => Spv.SamplePosition
    case SampleMask => Spv.SampleMask
    case FragDepth => Spv.FragDepth
    case HelperInvocation => Spv.HelperInvocation
    case NumWorkgroups => Spv.NumWorkgroups
    case WorkgroupSize => Spv.WorkgroupSize
    case WorkgroupId => Spv.WorkgroupId
    case LocalInvocationId => Spv.LocalInvocationId
    case GlobalInvocationId => Spv.GlobalInvocationId
    case LocalInvocationIndex => Spv.LocalInvocationIndex
    case WorkDim => Spv.WorkDim
    case GlobalSize => Spv.GlobalSize
    case EnqueuedWorkgroupSize => Spv.EnqueuedWorkgroupSize
    case GlobalOffset => Spv.GlobalOffset
    case GlobalLinearId => Spv.GlobalLinearId
    case SubgroupSize => Spv.SubgroupSize
    case SubgroupMaxSize => Spv.SubgroupMaxSize
    case NumSubgroups => Spv.NumSubgroups
    case NumEnqueuedSubgroups => Spv.NumEnqueuedSubgroups
    case SubgroupId => Spv.SubgroupId
    case SubgroupLocalInvocationId => Spv.SubgroupLocalInvocationId
    case VertexIndex => Spv.VertexIndex
    case InstanceIndex => Spv.InstanceIndex
    case SubgroupEqMask => Spv.SubgroupEqMask
    case SubgroupGeMask => Spv.SubgroupGeMask
    case SubgroupGtMask => Spv.SubgroupGtMask
    case SubgroupLeMask => Spv.SubgroupLeMask
    case SubgroupLtMask => Spv.SubgroupLtMask
    case BaseVertex => Spv.BaseVertex
    case BaseInstance => Spv.BaseInstance
    case DrawIndex => Spv.DrawIndex
    case PrimitiveShadingRateKhr => Spv.PrimitiveShadingRateKhr
    case DeviceIndex => Spv.DeviceIndex
    case ViewIndex => Spv.ViewIndex
    case ShadingRateKhr => Spv.ShadingRateKhr
    case BaryCoordNoPerspAmd => Spv.BaryCoordNoPerspAmd
    case BaryCoordNoPerspCentroidAmd => Spv.BaryCoordNoPerspCentroidAmd
    case BaryCoordNoPerspSampleAmd => Spv.BaryCoordNoPerspSampleAmd
    case BaryCoordSmoothAmd => Spv.BaryCoordSmoothAmd
    case BaryCoordSmoothCentroidAmd => Spv.BaryCoordSmoothCentroidAmd
    case BaryCoordSmoothSampleAmd => Spv.BaryCoordSmoothSampleAmd
    case BaryCoordPullModelAmd => Spv.BaryCoordPullModelAmd
    case FragStencilRefExt => Spv.FragStencilRefExt
    case ViewportMaskNv => Spv.ViewportMaskNv
    case SecondaryPositionNv => Spv.SecondaryPositionNv
    case SecondaryViewportMaskNv => Spv.SecondaryViewportMaskNv
    case PositionPerViewNv => Spv.PositionPerViewNv
    case ViewportMaskPerViewNv => Spv.ViewportMaskPerViewNv
    case FullyCoveredExt => Spv.FullyCoveredExt
    case TaskCountNv => Spv.TaskCountNv
    case PrimitiveCountNv => Spv.PrimitiveCountNv
    case PrimitiveIndicesNv => Spv.PrimitiveIndicesNv
    case ClipDistancePerViewNv => Spv.ClipDistancePerViewNv
    case CullDistancePerViewNv => Spv.CullDistancePerViewNv
    case LayerPerViewNv => Spv.LayerPerViewNv
    case MeshViewCountNv => Spv.MeshViewCountNv
    case MeshViewIndicesNv => Spv.MeshViewIndicesNv
    case BaryCoordKhr => Spv.BaryCoordKhr
    case BaryCoordNoPerspKhr => Spv.BaryCoordNoPerspKhr
    case FragSizeExt => Spv.FragSizeExt
    case FragInvocationCountExt => Spv.FragInvocationCountExt
    case PrimitivePointIndicesExt => Spv.PrimitivePointIndicesExt
    case PrimitiveLineIndicesExt => Spv.PrimitiveLineIndicesExt
    case PrimitiveTriangleIndicesExt => Spv.PrimitiveTriangleIndicesExt
    case CullPrimitiveExt => Spv.CullPrimitiveExt
    case LaunchIdKhr => Spv.LaunchIdKhr
    case LaunchSizeKhr => Spv.LaunchSizeKhr
    case WorldRayOriginKhr => Spv.WorldRayOriginKhr
    case WorldRayDirectionKhr => Spv.WorldRayDirectionKhr
    case ObjectRayOriginKhr => Spv.ObjectRayOriginKhr
    case ObjectRayDirectionKhr => Spv.ObjectRayDirectionKhr
    case RayTminKhr => Spv.RayTminKhr
    case RayTmaxKhr => Spv.RayTmaxKhr
    case InstanceCustomIndexKhr => Spv.InstanceCustomIndexKhr
    case ObjectToWorldKhr => Spv.ObjectToWorldKhr
    case WorldToObjectKhr => Spv.WorldToObjectKhr
    case HitTnv => Spv.HitTnv
    case HitKindKhr => Spv.HitKindKhr
    case CurrentRayTimeNv => Spv.CurrentRayTimeNv
    case IncomingRayFlagsKhr => Spv.IncomingRayFlagsKhr
    case RayGeometryIndexKhr => Spv.RayGeometryIndexKhr
    case WarpsPerSmnv => Spv.WarpsPerSmnv
    case SmCountNv => Spv.SmCountNv
    case WarpIdnv => Spv.WarpIdnv
    case Smidnv => Spv.Smidnv
    case CullMaskKhr => Spv.CullMaskKhr
  }

  /** The sentinel is the encoding of an absent built-in and of nothing else. */
  lemma BuiltInAsRawSentinel(b: Option<BuiltIn>)
    ensures BuiltInAsRaw(b) == Spv.Max <==> b.None?
  {
  }

  /** Public -> native -> public is the identity on every present built-in. */
  lemma BuiltInRoundTrip(b: BuiltIn)
    ensures BuiltInAsRaw(Some(b)) != Spv.Max
    ensures BuiltInFromRaw(BuiltInAsRaw(Some(b))) == b
  {
    PublicRoundTrip(b);
  }

  /** Native -> public -> native is the identity on every member but the sentinel. */
  lemma BuiltInRawRoundTrip(v: Spv.BuiltIn)
    requires v != Spv.Max
    ensures BuiltInAsRaw(Some(BuiltInFromRaw(v))) == v
  {
    NativeBuiltInFromRaw(v);
  }

  /** Native -> public -> native, one member at a time. */
  lemma NativeBuiltInFromRaw(v: Spv.BuiltIn)
    requires v != Spv.Max
    ensures NativeBuiltIn(BuiltInFromRaw(v)) == v
  {
    match v
    case Position => FromRawPosition(); AsRawPosition();
    case PointSize => FromRawPointSize(); AsRawPointSize();
    case ClipDistance => FromRawClipDistance(); AsRawClipDistance();
    case CullDistance => FromRawCullDistance(); AsRawCullDistance();
    case VertexId => FromRawVertexId(); AsRawVertexId();
    case InstanceId => FromRawInstanceId(); AsRawInstanceId();
    case PrimitiveId => FromRawPrimitiveId(); AsRawPrimitiveId();
    case InvocationId => FromRawInvocationId(); AsRawInvocationId();
    case Layer => FromRawLayer(); AsRawLayer();
    case ViewportIndex => FromRawViewportIndex(); AsRawViewportIndex();
    case TessLevelOuter => FromRawTessLevelOuter(); AsRawTessLevelOuter();
    case TessLevelInner => FromRawTessLevelInner(); AsRawTessLevelInner();
    case TessCoord => FromRawTessCoord(); AsRawTessCoord();
    case PatchVertices => FromRawPatchVertices(); AsRawPatchVertices();
    case FragCoord => FromRawFragCoord(); AsRawFragCoord();
    case PointCoord => FromRawPointCoord(); AsRawPointCoord();
    case FrontFacing => FromRawFrontFacing(); AsRawFrontFacing();
    case SampleId => FromRawSampleId(); AsRawSampleId();
    case SamplePosition => FromRawSamplePosition(); AsRawSamplePosition();
    case SampleMask => FromRawSampleMask(); AsRawSampleMask();
    case FragDepth => FromRawFragDepth(); AsRawFragDepth();
    case HelperInvocation => FromRawHelperInvocation(); AsRawHelperInvocation();
    case NumWorkgroups => FromRawNumWorkgroups(); AsRawNumWorkgroups();
    case WorkgroupSize => FromRawWorkgroupSize(); AsRawWorkgroupSize();
    case WorkgroupId => FromRawWorkgroupId(); AsRawWorkgroupId();
    case LocalInvocationId => FromRawLocalInvocationId(); AsRawLocalInvocationId();
    case GlobalInvocationId => FromRawGlobalInvocationId(); AsRawGlobalInvocationId();
    case LocalInvocationIndex => FromRawLocalInvocationIndex(); AsRawLocalInvocationIndex();
    case WorkDim => FromRawWorkDim(); AsRawWorkDim();
    case GlobalSize => FromRawGlobalSize(); AsRawGlobalSize();
    case EnqueuedWorkgroupSize => FromRawEnqueuedWorkgroupSize(); AsRawEnqueuedWorkgroupSize();
    case GlobalOffset => FromRawGlobalOffset(); AsRawGlobalOffset();
    case GlobalLinearId => FromRawGlobalLinearId(); AsRawGlobalLinearId();
    case SubgroupSize => FromRawSubgroupSize(); AsRawSubgroupSize();
    case SubgroupMaxSize => FromRawSubgroupMaxSize(); AsRawSubgroupMaxSize();
    case NumSubgroups => FromRawNumSubgroups(); AsRawNumSubgroups();
    case NumEnqueuedSubgroups => FromRawNumEnqueuedSubgroups(); AsRawNumEnqueuedSubgroups();
    case SubgroupId => FromRawSubgroupId(); AsRawSubgroupId();
    case SubgroupLocalInvocationId => FromRawSubgroupLocalInvocationId(); AsRawSubgroupLocalInvocationId();
    case VertexIndex => FromRawVertexIndex(); AsRawVertexIndex();
    case InstanceIndex => FromRawInstanceIndex(); AsRawInstanceIndex();
    case SubgroupEqMask => FromRawSubgroupEqMask(); AsRawSubgroupEqMask();
    case SubgroupGeMask => FromRawSubgroupGeMask(); AsRawSubgroupGeMask();
    case SubgroupGtMask => FromRawSubgroupGtMask(); AsRawSubgroupGtMask();
    case SubgroupLeMask => FromRawSubgroupLeMask(); AsRawSubgroupLeMask();
    case SubgroupLtMask => FromRawSubgroupLtMask(); AsRawSubgroupLtMask();
    case BaseVertex => FromRawBaseVertex(); AsRawBaseVertex();
    case BaseInstance => FromRawBaseInstance(); AsRawBaseInstance();
    case DrawIndex => FromRawDrawIndex(); AsRawDrawIndex();
    case PrimitiveShadingRateKhr => FromRawPrimitiveShadingRateKhr(); AsRawPrimitiveShadingRateKhr();
    case DeviceIndex => FromRawDeviceIndex(); AsRawDeviceIndex();
    case ViewIndex => FromRawViewIndex(); AsRawViewIndex();
    case ShadingRateKhr => FromRawShadingRateKhr(); AsRawShadingRateKhr();
    case BaryCoordNoPerspAmd => FromRawBaryCoordNoPerspAmd(); AsRawBaryCoordNoPerspAmd();
    case BaryCoordNoPerspCentroidAmd => FromRawBaryCoordNoPerspCentroidAmd(); AsRawBaryCoordNoPerspCentroidAmd();
    case BaryCoordNoPerspSampleAmd => FromRawBaryCoordNoPerspSampleAmd(); AsRawBaryCoordNoPerspSampleAmd();
    case BaryCoordSmoothAmd => FromRawBaryCoordSmoothAmd(); AsRawBaryCoordSmoothAmd();
    case BaryCoordSmoothCentroidAmd => FromRawBaryCoordSmoothCentroidAmd(); AsRawBaryCoordSmoothCentroidAmd();
    case BaryCoordSmoothSampleAmd => FromRawBaryCoordSmoothSampleAmd(); AsRawBaryCoordSmoothSampleAmd();
    case BaryCoordPullModelAmd => FromRawBaryCoordPullModelAmd(); AsRawBaryCoordPullModelAmd();
    case FragStencilRefExt => FromRawFragStencilRefExt(); AsRawFragStencilRefExt();
    case ViewportMaskNv => FromRawViewportMaskNv(); AsRawViewportMaskNv();
    case SecondaryPositionNv => FromRawSecondaryPositionNv(); AsRawSecondaryPositionNv();
    case SecondaryViewportMaskNv => FromRawSecondaryViewportMaskNv(); AsRawSecondaryViewportMaskNv();
    case PositionPerViewNv => FromRawPositionPerViewNv(); AsRawPositionPerViewNv();
    case ViewportMaskPerViewNv => FromRawViewportMaskPerViewNv(); AsRawViewportMaskPerViewNv();
    case FullyCoveredExt => FromRawFullyCoveredExt(); AsRawFullyCoveredExt();
    case TaskCountNv => FromRawTaskCountNv(); AsRawTaskCountNv();
    case PrimitiveCountNv => FromRawPrimitiveCountNv(); AsRawPrimitiveCountNv();
    case PrimitiveIndicesNv => FromRawPrimitiveIndicesNv(); AsRawPrimitiveIndicesNv();
    case ClipDistancePerViewNv => FromRawClipDistancePerViewNv(); AsRawClipDistancePerViewNv();
    case CullDistancePerViewNv => FromRawCullDistancePerViewNv(); AsRawCullDistancePerViewNv();
    case LayerPerViewNv => FromRawLayerPerViewNv(); AsRawLayerPerViewNv();
    case MeshViewCountNv => FromRawMeshViewCountNv(); AsRawMeshViewCountNv();
    case MeshViewIndicesNv => FromRawMeshViewIndicesNv(); AsRawMeshViewIndicesNv();
    case BaryCoordKhr => FromRawBaryCoordKhr(); AsRawBaryCoordKhr();
    case BaryCoordNoPerspKhr => FromRawBaryCoordNoPerspKhr(); AsRawBaryCoordNoPerspKhr();
    case FragSizeExt => FromRawFragSizeExt(); AsRawFragSizeExt();
    case FragInvocationCountExt => FromRawFragInvocationCountExt(); AsRawFragInvocationCountExt();
    case PrimitivePointIndicesExt => FromRawPrimitivePointIndicesExt(); AsRawPrimitivePointIndicesExt();
    case PrimitiveLineIndicesExt => FromRawPrimitiveLineIndicesExt(); AsRawPrimitiveLineIndicesExt();
    case PrimitiveTriangleIndicesExt => FromRawPrimitiveTriangleIndicesExt(); AsRawPrimitiveTriangleIndicesExt();
    case CullPrimitiveExt => FromRawCullPrimitiveExt(); AsRawCullPrimitiveExt();
    case LaunchIdKhr => FromRawLaunchIdKhr(); AsRawLaunchIdKhr();
    case LaunchSizeKhr => FromRawLaunchSizeKhr(); AsRawLaunchSizeKhr();
    case WorldRayOriginKhr => FromRawWorldRayOriginKhr(); AsRawWorldRayOriginKhr();
    case WorldRayDirectionKhr => FromRawWorldRayDirectionKhr(); AsRawWorldRayDirectionKhr();
    case ObjectRayOriginKhr => FromRawObjectRayOriginKhr(); AsRawObjectRayOriginKhr();
    case ObjectRayDirectionKhr => FromRawObjectRayDirectionKhr(); AsRawObjectRayDirectionKhr();
    case RayTminKhr => FromRawRayTminKhr(); AsRawRayTminKhr();
    case RayTmaxKhr => FromRawRayTmaxKhr(); AsRawRayTmaxKhr();
    case InstanceCustomIndexKhr => FromRawInstanceCustomIndexKhr(); AsRawInstanceCustomIndexKhr();
    case ObjectToWorldKhr => FromRawObjectToWorldKhr(); AsRawObjectToWorldKhr();
    case WorldToObjectKhr => FromRawWorldToObjectKhr(); AsRawWorldToObjectKhr();
    case HitTnv => FromRawHitTnv(); AsRawHitTnv();
    case HitKindKhr => FromRawHitKindKhr(); AsRawHitKindKhr();
    case CurrentRayTimeNv => FromRawCurrentRayTimeNv(); AsRawCurrentRayTimeNv();
    case IncomingRayFlagsKhr => FromRawIncomingRayFlagsKhr(); AsRawIncomingRayFlagsKhr();
    case RayGeometryIndexKhr => FromRawRayGeometryIndexKhr(); AsRawRayGeometryIndexKhr();
    case WarpsPerSmnv => FromRawWarpsPerSmnv(); AsRawWarpsPerSmnv();
    case SmCountNv => FromRawSmCountNv(); AsRawSmCountNv();
    case WarpIdnv => FromRawWarpIdnv(); AsRawWarpIdnv();
    case Smidnv => FromRawSmidnv(); AsRawSmidnv();
    case CullMaskKhr => FromRawCullMaskKhr(); AsRawCullMaskKhr();
  }

  /** Public -> native -> public, one member at a time. */
  lemma PublicRoundTrip(b: BuiltIn)
    ensures NativeBuiltIn(b) != Spv.Max && BuiltInFromRaw(NativeBuiltIn(b)) == b
  {
    match b
    case Position => FromRawPosition(); AsRawPosition();
    case PointSize => FromRawPointSize(); AsRawPointSize();
    case ClipDistance => FromRawClipDistance(); AsRawClipDistance();
    case CullDistance => FromRawCullDistance(); AsRawCullDistance();
    case VertexId => FromRawVertexId(); AsRawVertexId();
    case InstanceId => FromRawInstanceId(); AsRawInstanceId();
    case PrimitiveId => FromRawPrimitiveId(); AsRawPrimitiveId();
    case InvocationId => FromRawInvocationId(); AsRawInvocationId();
    case Layer => FromRawLayer(); AsRawLayer();
    case ViewportIndex => FromRawViewportIndex(); AsRawViewportIndex();
    case TessLevelOuter => FromRawTessLevelOuter(); AsRawTessLevelOuter();
    case TessLevelInner => FromRawTessLevelInner(); AsRawTessLevelInner();
    case TessCoord => FromRawTessCoord(); AsRawTessCoord();
    case PatchVertices => FromRawPatchVertices(); AsRawPatchVertices();
    case FragCoord => FromRawFragCoord(); AsRawFragCoord();
    case PointCoord => FromRawPointCoord(); AsRawPointCoord();
    case FrontFacing => FromRawFrontFacing(); AsRawFrontFacing();
    case SampleId => FromRawSampleId(); AsRawSampleId();
    case SamplePosition => FromRawSamplePosition(); AsRawSamplePosition();
    case SampleMask => FromRawSampleMask(); AsRawSampleMask();
    case FragDepth => FromRawFragDepth(); AsRawFragDepth();
    case HelperInvocation => FromRawHelperInvocation(); AsRawHelperInvocation();
    case NumWorkgroups => FromRawNumWorkgroups(); AsRawNumWorkgroups();
    case WorkgroupSize => FromRawWorkgroupSize(); AsRawWorkgroupSize();
    case WorkgroupId => FromRawWorkgroupId(); AsRawWorkgroupId();
    case LocalInvocationId => FromRawLocalInvocationId(); AsRawLocalInvocationId();
    case GlobalInvocationId => FromRawGlobalInvocationId(); AsRawGlobalInvocationId();
    case LocalInvocationIndex => FromRawLocalInvocationIndex(); AsRawLocalInvocationIndex();
    case WorkDim => FromRawWorkDim(); AsRawWorkDim();
    case GlobalSize => FromRawGlobalSize(); AsRawGlobalSize();
    case EnqueuedWorkgroupSize => FromRawEnqueuedWorkgroupSize(); AsRawEnqueuedWorkgroupSize();
    case GlobalOffset => FromRawGlobalOffset(); AsRawGlobalOffset();
    case GlobalLinearId => FromRawGlobalLinearId(); AsRawGlobalLinearId();
    case SubgroupSize => FromRawSubgroupSize(); AsRawSubgroupSize();
    case SubgroupMaxSize => FromRawSubgroupMaxSize(); AsRawSubgroupMaxSize();
    case NumSubgroups => FromRawNumSubgroups(); AsRawNumSubgroups();
    case NumEnqueuedSubgroups => FromRawNumEnqueuedSubgroups(); AsRawNumEnqueuedSubgroups();
    case SubgroupId => FromRawSubgroupId(); AsRawSubgroupId();
    case SubgroupLocalInvocationId => FromRawSubgroupLocalInvocationId(); AsRawSubgroupLocalInvocationId();
    case VertexIndex => FromRawVertexIndex(); AsRawVertexIndex();
    case InstanceIndex => FromRawInstanceIndex(); AsRawInstanceIndex();
    case SubgroupEqMask => FromRawSubgroupEqMask(); AsRawSubgroupEqMask();
    case SubgroupGeMask => FromRawSubgroupGeMask(); AsRawSubgroupGeMask();
    case SubgroupGtMask => FromRawSubgroupGtMask(); AsRawSubgroupGtMask();
    case SubgroupLeMask => FromRawSubgroupLeMask(); AsRawSubgroupLeMask();
    case SubgroupLtMask => FromRawSubgroupLtMask(); AsRawSubgroupLtMask();
    case BaseVertex => FromRawBaseVertex(); AsRawBaseVertex();
    case BaseInstance => FromRawBaseInstance(); AsRawBaseInstance();
    case DrawIndex => FromRawDrawIndex(); AsRawDrawIndex();
    case PrimitiveShadingRateKhr => FromRawPrimitiveShadingRateKhr(); AsRawPrimitiveShadingRateKhr();
    case DeviceIndex => FromRawDeviceIndex(); AsRawDeviceIndex();
    case ViewIndex => FromRawViewIndex(); AsRawViewIndex();
    case ShadingRateKhr => FromRawShadingRateKhr(); AsRawShadingRateKhr();
    case BaryCoordNoPerspAmd => FromRawBaryCoordNoPerspAmd(); AsRawBaryCoordNoPerspAmd();
    case BaryCoordNoPerspCentroidAmd => FromRawBaryCoordNoPerspCentroidAmd(); AsRawBaryCoordNoPerspCentroidAmd();
    case BaryCoordNoPerspSampleAmd => FromRawBaryCoordNoPerspSampleAmd(); AsRawBaryCoordNoPerspSampleAmd();
    case BaryCoordSmoothAmd => FromRawBaryCoordSmoothAmd(); AsRawBaryCoordSmoothAmd();
    case BaryCoordSmoothCentroidAmd => FromRawBaryCoordSmoothCentroidAmd(); AsRawBaryCoordSmoothCentroidAmd();
    case BaryCoordSmoothSampleAmd => FromRawBaryCoordSmoothSampleAmd(); AsRawBaryCoordSmoothSampleAmd();
    case BaryCoordPullModelAmd => FromRawBaryCoordPullModelAmd(); AsRawBaryCoordPullModelAmd();
    case FragStencilRefExt => FromRawFragStencilRefExt(); AsRawFragStencilRefExt();
    case ViewportMaskNv => FromRawViewportMaskNv(); AsRawViewportMaskNv();
    case SecondaryPositionNv => FromRawSecondaryPositionNv(); AsRawSecondaryPositionNv();
    case SecondaryViewportMaskNv => FromRawSecondaryViewportMaskNv(); AsRawSecondaryViewportMaskNv();
    case PositionPerViewNv => FromRawPositionPerViewNv(); AsRawPositionPerViewNv();
    case ViewportMaskPerViewNv => FromRawViewportMaskPerViewNv(); AsRawViewportMaskPerViewNv();
    case FullyCoveredExt => FromRawFullyCoveredExt(); AsRawFullyCoveredExt();
    case TaskCountNv => FromRawTaskCountNv(); AsRawTaskCountNv();
    case PrimitiveCountNv => FromRawPrimitiveCountNv(); AsRawPrimitiveCountNv();
    case PrimitiveIndicesNv => FromRawPrimitiveIndicesNv(); AsRawPrimitiveIndicesNv();
    case ClipDistancePerViewNv => FromRawClipDistancePerViewNv(); AsRawClipDistancePerViewNv();
    case CullDistancePerViewNv => FromRawCullDistancePerViewNv(); AsRawCullDistancePerViewNv();
    case LayerPerViewNv => FromRawLayerPerViewNv(); AsRawLayerPerViewNv();
    case MeshViewCountNv => FromRawMeshViewCountNv(); AsRawMeshViewCountNv();
    case MeshViewIndicesNv => FromRawMeshViewIndicesNv(); AsRawMeshViewIndicesNv();
    case BaryCoordKhr => FromRawBaryCoordKhr(); AsRawBaryCoordKhr();
    case BaryCoordNoPerspKhr => FromRawBaryCoordNoPerspKhr(); AsRawBaryCoordNoPerspKhr();
    case FragSizeExt => FromRawFragSizeExt(); AsRawFragSizeExt();
    case FragInvocationCountExt => FromRawFragInvocationCountExt(); AsRawFragInvocationCountExt();
    case PrimitivePointIndicesExt => FromRawPrimitivePointIndicesExt(); AsRawPrimitivePointIndicesExt();
    case PrimitiveLineIndicesExt => FromRawPrimitiveLineIndicesExt(); AsRawPrimitiveLineIndicesExt();
    case PrimitiveTriangleIndicesExt => FromRawPrimitiveTriangleIndicesExt(); AsRawPrimitiveTriangleIndicesExt();
    case CullPrimitiveExt => FromRawCullPrimitiveExt(); AsRawCullPrimitiveExt();
    case LaunchIdKhr => FromRawLaunchIdKhr(); AsRawLaunchIdKhr();
    case LaunchSizeKhr => FromRawLaunchSizeKhr(); AsRawLaunchSizeKhr();
    case WorldRayOriginKhr => FromRawWorldRayOriginKhr(); AsRawWorldRayOriginKhr();
    case WorldRayDirectionKhr => FromRawWorldRayDirectionKhr(); AsRawWorldRayDirectionKhr();
    case ObjectRayOriginKhr => FromRawObjectRayOriginKhr(); AsRawObjectRayOriginKhr();
    case ObjectRayDirectionKhr => FromRawObjectRayDirectionKhr(); AsRawObjectRayDirectionKhr();
    case RayTminKhr => FromRawRayTminKhr(); AsRawRayTminKhr();
    case RayTmaxKhr => FromRawRayTmaxKhr(); AsRawRayTmaxKhr();
    case InstanceCustomIndexKhr => FromRawInstanceCustomIndexKhr(); AsRawInstanceCustomIndexKhr();
    case ObjectToWorldKhr => FromRawObjectToWorldKhr(); AsRawObjectToWorldKhr();
    case WorldToObjectKhr => FromRawWorldToObjectKhr(); AsRawWorldToObjectKhr();
    case HitTnv => FromRawHitTnv(); AsRawHitTnv();
    case HitKindKhr => FromRawHitKindKhr(); AsRawHitKindKhr();
    case CurrentRayTimeNv => FromRawCurrentRayTimeNv(); AsRawCurrentRayTimeNv();
    case IncomingRayFlagsKhr => FromRawIncomingRayFlagsKhr(); AsRawIncomingRayFlagsKhr();
    case RayGeometryIndexKhr => FromRawRayGeometryIndexKhr(); AsRawRayGeometryIndexKhr();
    case WarpsPerSmnv => FromRawWarpsPerSmnv(); AsRawWarpsPerSmnv();
    case SmCountNv => FromRawSmCountNv(); AsRawSmCountNv();
    case WarpIdnv => FromRawWarpIdnv(); AsRawWarpIdnv();
    case Smidnv => FromRawSmidnv(); AsRawSmidnv();
    case CullMaskKhr => FromRawCullMaskKhr(); AsRawCullMaskKhr();
  }

  // Solver helpers: one arm of `from_raw` (and below, one arm of `as_raw`) per lemma, so
  // that the two case-splitting lemmas above unfold a single arm at a time. They state
  // nothing beyond the two round-trip lemmas and are called only from them.
  // One arm of `from_raw` each.
  lemma FromRawPosition() ensures BuiltInFromRaw(Spv.Position) == Position { }
  lemma FromRawPointSize() ensures BuiltInFromRaw(Spv.PointSize) == PointSize { }
  lemma FromRawClipDistance() ensures BuiltInFromRaw(Spv.ClipDistance) == ClipDistance { }
  lemma FromRawCullDistance() ensures BuiltInFromRaw(Spv.CullDistance) == CullDistance { }
  lemma FromRawVertexId() ensures BuiltInFromRaw(Spv.VertexId) == VertexId { }
  lemma FromRawInstanceId() ensures BuiltInFromRaw(Spv.InstanceId) == InstanceId { }
  lemma FromRawPrimitiveId() ensures BuiltInFromRaw(Spv.PrimitiveId) == PrimitiveId { }
  lemma FromRawInvocationId() ensures BuiltInFromRaw(Spv.InvocationId) == InvocationId { }
  lemma FromRawLayer() ensures BuiltInFromRaw(Spv.Layer) == Layer { }
  lemma FromRawViewportIndex() ensures BuiltInFromRaw(Spv.ViewportIndex) == ViewportIndex { }
  lemma FromRawTessLevelOuter() ensures BuiltInFromRaw(Spv.TessLevelOuter) == TessLevelOuter { }
  lemma FromRawTessLevelInner() ensures BuiltInFromRaw(Spv.TessLevelInner) == TessLevelInner { }
  lemma FromRawTessCoord() ensures BuiltInFromRaw(Spv.TessCoord) == TessCoord { }
  lemma FromRawPatchVertices() ensures BuiltInFromRaw(Spv.PatchVertices) == PatchVertices { }
  lemma FromRawFragCoord() ensures BuiltInFromRaw(Spv.FragCoord) == FragCoord { }
  lemma FromRawPointCoord() ensures BuiltInFromRaw(Spv.PointCoord) == PointCoord { }
  lemma FromRawFrontFacing() ensures BuiltInFromRaw(Spv.FrontFacing) == FrontFacing { }
  lemma FromRawSampleId() ensures BuiltInFromRaw(Spv.SampleId) == SampleId { }
  lemma FromRawSamplePosition() ensures BuiltInFromRaw(Spv.SamplePosition) == SamplePosition { }
  lemma FromRawSampleMask() ensures BuiltInFromRaw(Spv.SampleMask) == SampleMask { }
  lemma FromRawFragDepth() ensures BuiltInFromRaw(Spv.FragDepth) == FragDepth { }
  lemma FromRawHelperInvocation() ensures BuiltInFromRaw(Spv.HelperInvocation) == HelperInvocation { }
  lemma FromRawNumWorkgroups() ensures BuiltInFromRaw(Spv.NumWorkgroups) == NumWorkgroups { }
  lemma FromRawWorkgroupSize() ensures BuiltInFromRaw(Spv.WorkgroupSize) == WorkgroupSize { }
  lemma FromRawWorkgroupId() ensures BuiltInFromRaw(Spv.WorkgroupId) == WorkgroupId { }
  lemma FromRawLocalInvocationId() ensures BuiltInFromRaw(Spv.LocalInvocationId) == LocalInvocationId { }
  lemma FromRawGlobalInvocationId() ensures BuiltInFromRaw(Spv.GlobalInvocationId) == GlobalInvocationId { }
  lemma FromRawLocalInvocationIndex() ensures BuiltInFromRaw(Spv.LocalInvocationIndex) == LocalInvocationIndex { }
  lemma FromRawWorkDim() ensures BuiltInFromRaw(Spv.WorkDim) == WorkDim { }
  lemma FromRawGlobalSize() ensures BuiltInFromRaw(Spv.GlobalSize) == GlobalSize { }
  lemma FromRawEnqueuedWorkgroupSize() ensures BuiltInFromRaw(Spv.EnqueuedWorkgroupSize) == EnqueuedWorkgroupSize { }
  lemma FromRawGlobalOffset() ensures BuiltInFromRaw(Spv.GlobalOffset) == GlobalOffset { }
  lemma FromRawGlobalLinearId() ensures BuiltInFromRaw(Spv.GlobalLinearId) == GlobalLinearId { }
  lemma FromRawSubgroupSize() ensures BuiltInFromRaw(Spv.SubgroupSize) == SubgroupSize { }
  lemma FromRawSubgroupMaxSize() ensures BuiltInFromRaw(Spv.SubgroupMaxSize) == SubgroupMaxSize { }
  lemma FromRawNumSubgroups() ensures BuiltInFromRaw(Spv.NumSubgroups) == NumSubgroups { }
  lemma FromRawNumEnqueuedSubgroups() ensures BuiltInFromRaw(Spv.NumEnqueuedSubgroups) == NumEnqueuedSubgroups { }
  lemma FromRawSubgroupId() ensures BuiltInFromRaw(Spv.SubgroupId) == SubgroupId { }
  lemma FromRawSubgroupLocalInvocationId() ensures BuiltInFromRaw(Spv.SubgroupLocalInvocationId) == SubgroupLocalInvocationId { }
  lemma FromRawVertexIndex() ensures BuiltInFromRaw(Spv.VertexIndex) == VertexIndex { }
  lemma FromRawInstanceIndex() ensures BuiltInFromRaw(Spv.InstanceIndex) == InstanceIndex { }
  lemma FromRawSubgroupEqMask() ensures BuiltInFromRaw(Spv.SubgroupEqMask) == SubgroupEqMask { }
  lemma FromRawSubgroupGeMask() ensures BuiltInFromRaw(Spv.SubgroupGeMask) == SubgroupGeMask { }
  lemma FromRawSubgroupGtMask() ensures BuiltInFromRaw(Spv.SubgroupGtMask) == SubgroupGtMask { }
  lemma FromRawSubgroupLeMask() ensures BuiltInFromRaw(Spv.SubgroupLeMask) == SubgroupLeMask { }
  lemma FromRawSubgroupLtMask() ensures BuiltInFromRaw(Spv.SubgroupLtMask) == SubgroupLtMask { }
  lemma FromRawBaseVertex() ensures BuiltInFromRaw(Spv.BaseVertex) == BaseVertex { }
  lemma FromRawBaseInstance() ensures BuiltInFromRaw(Spv.BaseInstance) == BaseInstance { }
  lemma FromRawDrawIndex() ensures BuiltInFromRaw(Spv.DrawIndex) == DrawIndex { }
  lemma FromRawPrimitiveShadingRateKhr() ensures BuiltInFromRaw(Spv.PrimitiveShadingRateKhr) == PrimitiveShadingRateKhr { }
  lemma FromRawDeviceIndex() ensures BuiltInFromRaw(Spv.DeviceIndex) == DeviceIndex { }
  lemma FromRawViewIndex() ensures BuiltInFromRaw(Spv.ViewIndex) == ViewIndex { }
  lemma FromRawShadingRateKhr() ensures BuiltInFromRaw(Spv.ShadingRateKhr) == ShadingRateKhr { }
  lemma FromRawBaryCoordNoPerspAmd() ensures BuiltInFromRaw(Spv.BaryCoordNoPerspAmd) == BaryCoordNoPerspAmd { }
  lemma FromRawBaryCoordNoPerspCentroidAmd() ensures BuiltInFromRaw(Spv.BaryCoordNoPerspCentroidAmd) == BaryCoordNoPerspCentroidAmd { }
  lemma FromRawBaryCoordNoPerspSampleAmd() ensures BuiltInFromRaw(Spv.BaryCoordNoPerspSampleAmd) == BaryCoordNoPerspSampleAmd { }
  lemma FromRawBaryCoordSmoothAmd() ensures BuiltInFromRaw(Spv.BaryCoordSmoothAmd) == BaryCoordSmoothAmd { }
  lemma FromRawBaryCoordSmoothCentroidAmd() ensures BuiltInFromRaw(Spv.BaryCoordSmoothCentroidAmd) == BaryCoordSmoothCentroidAmd { }
  lemma FromRawBaryCoordSmoothSampleAmd() ensures BuiltInFromRaw(Spv.BaryCoordSmoothSampleAmd) == BaryCoordSmoothSampleAmd { }
  lemma FromRawBaryCoordPullModelAmd() ensures BuiltInFromRaw(Spv.BaryCoordPullModelAmd) == BaryCoordPullModelAmd { }
  lemma FromRawFragStencilRefExt() ensures BuiltInFromRaw(Spv.FragStencilRefExt) == FragStencilRefExt { }
  lemma FromRawViewportMaskNv() ensures BuiltInFromRaw(Spv.ViewportMaskNv) == ViewportMaskNv { }
  lemma FromRawSecondaryPositionNv() ensures BuiltInFromRaw(Spv.SecondaryPositionNv) == SecondaryPositionNv { }
  lemma FromRawSecondaryViewportMaskNv() ensures BuiltInFromRaw(Spv.SecondaryViewportMaskNv) == SecondaryViewportMaskNv { }
  lemma FromRawPositionPerViewNv() ensures BuiltInFromRaw(Spv.PositionPerViewNv) == PositionPerViewNv { }
  lemma FromRawViewportMaskPerViewNv() ensures BuiltInFromRaw(Spv.ViewportMaskPerViewNv) == ViewportMaskPerViewNv { }
  lemma FromRawFullyCoveredExt() ensures BuiltInFromRaw(Spv.FullyCoveredExt) == FullyCoveredExt { }
  lemma FromRawTaskCountNv() ensures BuiltInFromRaw(Spv.TaskCountNv) == TaskCountNv { }
  lemma FromRawPrimitiveCountNv() ensures BuiltInFromRaw(Spv.PrimitiveCountNv) == PrimitiveCountNv { }
  lemma FromRawPrimitiveIndicesNv() ensures BuiltInFromRaw(Spv.PrimitiveIndicesNv) == PrimitiveIndicesNv { }
  lemma FromRawClipDistancePerViewNv() ensures BuiltInFromRaw(Spv.ClipDistancePerViewNv) == ClipDistancePerViewNv { }
  lemma FromRawCullDistancePerViewNv() ensures BuiltInFromRaw(Spv.CullDistancePerViewNv) == CullDistancePerViewNv { }
  lemma FromRawLayerPerViewNv() ensures BuiltInFromRaw(Spv.LayerPerViewNv) == LayerPerViewNv { }
  lemma FromRawMeshViewCountNv() ensures BuiltInFromRaw(Spv.MeshViewCountNv) == MeshViewCountNv { }
  lemma FromRawMeshViewIndicesNv() ensures BuiltInFromRaw(Spv.MeshViewIndicesNv) == MeshViewIndicesNv { }
  lemma FromRawBaryCoordKhr() ensures BuiltInFromRaw(Spv.BaryCoordKhr) == BaryCoordKhr { }
  lemma FromRawBaryCoordNoPerspKhr() ensures BuiltInFromRaw(Spv.BaryCoordNoPerspKhr) == BaryCoordNoPerspKhr { }
  lemma FromRawFragSizeExt() ensures BuiltInFromRaw(Spv.FragSizeExt) == FragSizeExt { }
  lemma FromRawFragInvocationCountExt() ensures BuiltInFromRaw(Spv.FragInvocationCountExt) == FragInvocationCountExt { }
  lemma FromRawPrimitivePointIndicesExt() ensures BuiltInFromRaw(Spv.PrimitivePointIndicesExt) == PrimitivePointIndicesExt { }
  lemma FromRawPrimitiveLineIndicesExt() ensures BuiltInFromRaw(Spv.PrimitiveLineIndicesExt) == PrimitiveLineIndicesExt { }
  lemma FromRawPrimitiveTriangleIndicesExt() ensures BuiltInFromRaw(Spv.PrimitiveTriangleIndicesExt) == PrimitiveTriangleIndicesExt { }
  lemma FromRawCullPrimitiveExt() ensures BuiltInFromRaw(Spv.CullPrimitiveExt) == CullPrimitiveExt { }
  lemma FromRawLaunchIdKhr() ensures BuiltInFromRaw(Spv.LaunchIdKhr) == LaunchIdKhr { }
  lemma FromRawLaunchSizeKhr() ensures BuiltInFromRaw(Spv.LaunchSizeKhr) == LaunchSizeKhr { }
  lemma FromRawWorldRayOriginKhr() ensures BuiltInFromRaw(Spv.WorldRayOriginKhr) == WorldRayOriginKhr { }
  lemma FromRawWorldRayDirectionKhr() ensures BuiltInFromRaw(Spv.WorldRayDirectionKhr) == WorldRayDirectionKhr { }
  lemma FromRawObjectRayOriginKhr() ensures BuiltInFromRaw(Spv.ObjectRayOriginKhr) == ObjectRayOriginKhr { }
  lemma FromRawObjectRayDirectionKhr() ensures BuiltInFromRaw(Spv.ObjectRayDirectionKhr) == ObjectRayDirectionKhr { }
  lemma FromRawRayTminKhr() ensures BuiltInFromRaw(Spv.RayTminKhr) == RayTminKhr { }
  lemma FromRawRayTmaxKhr() ensures BuiltInFromRaw(Spv.RayTmaxKhr) == RayTmaxKhr { }
  lemma FromRawInstanceCustomIndexKhr() ensures BuiltInFromRaw(Spv.InstanceCustomIndexKhr) == InstanceCustomIndexKhr { }
  lemma FromRawObjectToWorldKhr() ensures BuiltInFromRaw(Spv.ObjectToWorldKhr) == ObjectToWorldKhr { }
  lemma FromRawWorldToObjectKhr() ensures BuiltInFromRaw(Spv.WorldToObjectKhr) == WorldToObjectKhr { }
  lemma FromRawHitTnv() ensures BuiltInFromRaw(Spv.HitTnv) == HitTnv { }
  lemma FromRawHitKindKhr() ensures BuiltInFromRaw(Spv.HitKindKhr) == HitKindKhr { }
  lemma FromRawCurrentRayTimeNv() ensures BuiltInFromRaw(Spv.CurrentRayTimeNv) == CurrentRayTimeNv { }
  lemma FromRawIncomingRayFlagsKhr() ensures BuiltInFromRaw(Spv.IncomingRayFlagsKhr) == IncomingRayFlagsKhr { }
  lemma FromRawRayGeometryIndexKhr() ensures BuiltInFromRaw(Spv.RayGeometryIndexKhr) == RayGeometryIndexKhr { }
  lemma FromRawWarpsPerSmnv() ensures BuiltInFromRaw(Spv.WarpsPerSmnv) == WarpsPerSmnv { }
  lemma FromRawSmCountNv() ensures BuiltInFromRaw(Spv.SmCountNv) == SmCountNv { }
  lemma FromRawWarpIdnv() ensures BuiltInFromRaw(Spv.WarpIdnv) == WarpIdnv { }
  lemma FromRawSmidnv() ensures BuiltInFromRaw(Spv.Smidnv) == Smidnv { }
  lemma FromRawCullMaskKhr() ensures BuiltInFromRaw(Spv.CullMaskKhr) == CullMaskKhr { }

  // One arm of `built_in_as_raw` each.
  lemma AsRawPosition() ensures NativeBuiltIn(Position) == Spv.Position { }
  lemma AsRawPointSize() ensures NativeBuiltIn(PointSize) == Spv.PointSize { }
  lemma AsRawClipDistance() ensures NativeBuiltIn(ClipDistance) == Spv.ClipDistance { }
  lemma AsRawCullDistance() ensures NativeBuiltIn(CullDistance) == Spv.CullDistance { }
  lemma AsRawVertexId() ensures NativeBuiltIn(VertexId) == Spv.VertexId { }
  lemma AsRawInstanceId() ensures NativeBuiltIn(InstanceId) == Spv.InstanceId { }
  lemma AsRawPrimitiveId() ensures NativeBuiltIn(PrimitiveId) == Spv.PrimitiveId { }
  lemma AsRawInvocationId() ensures NativeBuiltIn(InvocationId) == Spv.InvocationId { }
  lemma AsRawLayer() ensures NativeBuiltIn(Layer) == Spv.Layer { }
  lemma AsRawViewportIndex() ensures NativeBuiltIn(ViewportIndex) == Spv.ViewportIndex { }
  lemma AsRawTessLevelOuter() ensures NativeBuiltIn(TessLevelOuter) == Spv.TessLevelOuter { }
  lemma AsRawTessLevelInner() ensures NativeBuiltIn(TessLevelInner) == Spv.TessLevelInner { }
  lemma AsRawTessCoord() ensures NativeBuiltIn(TessCoord) == Spv.TessCoord { }
  lemma AsRawPatchVertices() ensures NativeBuiltIn(PatchVertices) == Spv.PatchVertices { }
  lemma AsRawFragCoord() ensures NativeBuiltIn(FragCoord) == Spv.FragCoord { }
  lemma AsRawPointCoord() ensures NativeBuiltIn(PointCoord) == Spv.PointCoord { }
  lemma AsRawFrontFacing() ensures NativeBuiltIn(FrontFacing) == Spv.FrontFacing { }
  lemma AsRawSampleId() ensures NativeBuiltIn(SampleId) == Spv.SampleId { }
  lemma AsRawSamplePosition() ensures NativeBuiltIn(SamplePosition) == Spv.SamplePosition { }
  lemma AsRawSampleMask() ensures NativeBuiltIn(SampleMask) == Spv.SampleMask { }
  lemma AsRawFragDepth() ensures NativeBuiltIn(FragDepth) == Spv.FragDepth { }
  lemma AsRawHelperInvocation() ensures NativeBuiltIn(HelperInvocation) == Spv.HelperInvocation { }
  lemma AsRawNumWorkgroups() ensures NativeBuiltIn(NumWorkgroups) == Spv.NumWorkgroups { }
  lemma AsRawWorkgroupSize() ensures NativeBuiltIn(WorkgroupSize) == Spv.WorkgroupSize { }
  lemma AsRawWorkgroupId() ensures NativeBuiltIn(WorkgroupId) == Spv.WorkgroupId { }
  lemma AsRawLocalInvocationId() ensures NativeBuiltIn(LocalInvocationId) == Spv.LocalInvocationId { }
  lemma AsRawGlobalInvocationId() ensures NativeBuiltIn(GlobalInvocationId) == Spv.GlobalInvocationId { }
  lemma AsRawLocalInvocationIndex() ensures NativeBuiltIn(LocalInvocationIndex) == Spv.LocalInvocationIndex { }
  lemma AsRawWorkDim() ensures NativeBuiltIn(WorkDim) == Spv.WorkDim { }
  lemma AsRawGlobalSize() ensures NativeBuiltIn(GlobalSize) == Spv.GlobalSize { }
  lemma AsRawEnqueuedWorkgroupSize() ensures NativeBuiltIn(EnqueuedWorkgroupSize) == Spv.EnqueuedWorkgroupSize { }
  lemma AsRawGlobalOffset() ensures NativeBuiltIn(GlobalOffset) == Spv.GlobalOffset { }
  lemma AsRawGlobalLinearId() ensures NativeBuiltIn(GlobalLinearId) == Spv.GlobalLinearId { }
  lemma AsRawSubgroupSize() ensures NativeBuiltIn(SubgroupSize) == Spv.SubgroupSize { }
  lemma AsRawSubgroupMaxSize() ensures NativeBuiltIn(SubgroupMaxSize) == Spv.SubgroupMaxSize { }
  lemma AsRawNumSubgroups() ensures NativeBuiltIn(NumSubgroups) == Spv.NumSubgroups { }
  lemma AsRawNumEnqueuedSubgroups() ensures NativeBuiltIn(NumEnqueuedSubgroups) == Spv.NumEnqueuedSubgroups { }
  lemma AsRawSubgroupId() ensures NativeBuiltIn(SubgroupId) == Spv.SubgroupId { }
  lemma AsRawSubgroupLocalInvocationId() ensures NativeBuiltIn(SubgroupLocalInvocationId) == Spv.SubgroupLocalInvocationId { }
  lemma AsRawVertexIndex() ensures NativeBuiltIn(VertexIndex) == Spv.VertexIndex { }
  lemma AsRawInstanceIndex() ensures NativeBuiltIn(InstanceIndex) == Spv.InstanceIndex { }
  lemma AsRawSubgroupEqMask() ensures NativeBuiltIn(SubgroupEqMask) == Spv.SubgroupEqMask { }
  lemma AsRawSubgroupGeMask() ensures NativeBuiltIn(SubgroupGeMask) == Spv.SubgroupGeMask { }
  lemma AsRawSubgroupGtMask() ensures NativeBuiltIn(SubgroupGtMask) == Spv.SubgroupGtMask { }
  lemma AsRawSubgroupLeMask() ensures NativeBuiltIn(SubgroupLeMask) == Spv.SubgroupLeMask { }
  lemma AsRawSubgroupLtMask() ensures NativeBuiltIn(SubgroupLtMask) == Spv.SubgroupLtMask { }
  lemma AsRawBaseVertex() ensures NativeBuiltIn(BaseVertex) == Spv.BaseVertex { }
  lemma AsRawBaseInstance() ensures NativeBuiltIn(BaseInstance) == Spv.BaseInstance { }
  lemma AsRawDrawIndex() ensures NativeBuiltIn(DrawIndex) == Spv.DrawIndex { }
  lemma AsRawPrimitiveShadingRateKhr() ensures NativeBuiltIn(PrimitiveShadingRateKhr) == Spv.PrimitiveShadingRateKhr { }
  lemma AsRawDeviceIndex() ensures NativeBuiltIn(DeviceIndex) == Spv.DeviceIndex { }
  lemma AsRawViewIndex() ensures NativeBuiltIn(ViewIndex) == Spv.ViewIndex { }
  lemma AsRawShadingRateKhr() ensures NativeBuiltIn(ShadingRateKhr) == Spv.ShadingRateKhr { }
  lemma AsRawBaryCoordNoPerspAmd() ensures NativeBuiltIn(BaryCoordNoPerspAmd) == Spv.BaryCoordNoPerspAmd { }
  lemma AsRawBaryCoordNoPerspCentroidAmd() ensures NativeBuiltIn(BaryCoordNoPerspCentroidAmd) == Spv.BaryCoordNoPerspCentroidAmd { }
  lemma AsRawBaryCoordNoPerspSampleAmd() ensures NativeBuiltIn(BaryCoordNoPerspSampleAmd) == Spv.BaryCoordNoPerspSampleAmd { }
  lemma AsRawBaryCoordSmoothAmd() ensures NativeBuiltIn(BaryCoordSmoothAmd) == Spv.BaryCoordSmoothAmd { }
  lemma AsRawBaryCoordSmoothCentroidAmd() ensures NativeBuiltIn(BaryCoordSmoothCentroidAmd) == Spv.BaryCoordSmoothCentroidAmd { }
  lemma AsRawBaryCoordSmoothSampleAmd() ensures NativeBuiltIn(BaryCoordSmoothSampleAmd) == Spv.BaryCoordSmoothSampleAmd { }
  lemma AsRawBaryCoordPullModelAmd() ensures NativeBuiltIn(BaryCoordPullModelAmd) == Spv.BaryCoordPullModelAmd { }
  lemma AsRawFragStencilRefExt() ensures NativeBuiltIn(FragStencilRefExt) == Spv.FragStencilRefExt { }
  lemma AsRawViewportMaskNv() ensures NativeBuiltIn(ViewportMaskNv) == Spv.ViewportMaskNv { }
  lemma AsRawSecondaryPositionNv() ensures NativeBuiltIn(SecondaryPositionNv) == Spv.SecondaryPositionNv { }
  lemma AsRawSecondaryViewportMaskNv() ensures NativeBuiltIn(SecondaryViewportMaskNv) == Spv.SecondaryViewportMaskNv { }
  lemma AsRawPositionPerViewNv() ensures NativeBuiltIn(PositionPerViewNv) == Spv.PositionPerViewNv { }
  lemma AsRawViewportMaskPerViewNv() ensures NativeBuiltIn(ViewportMaskPerViewNv) == Spv.ViewportMaskPerViewNv { }
  lemma AsRawFullyCoveredExt() ensures NativeBuiltIn(FullyCoveredExt) == Spv.FullyCoveredExt { }
  lemma AsRawTaskCountNv() ensures NativeBuiltIn(TaskCountNv) == Spv.TaskCountNv { }
  lemma AsRawPrimitiveCountNv() ensures NativeBuiltIn(PrimitiveCountNv) == Spv.PrimitiveCountNv { }
  lemma AsRawPrimitiveIndicesNv() ensures NativeBuiltIn(PrimitiveIndicesNv) == Spv.PrimitiveIndicesNv { }
  lemma AsRawClipDistancePerViewNv() ensures NativeBuiltIn(ClipDistancePerViewNv) == Spv.ClipDistancePerViewNv { }
  lemma AsRawCullDistancePerViewNv() ensures NativeBuiltIn(CullDistancePerViewNv) == Spv.CullDistancePerViewNv { }
  lemma AsRawLayerPerViewNv() ensures NativeBuiltIn(LayerPerViewNv) == Spv.LayerPerViewNv { }
  lemma AsRawMeshViewCountNv() ensures NativeBuiltIn(MeshViewCountNv) == Spv.MeshViewCountNv { }
  lemma AsRawMeshViewIndicesNv() ensures NativeBuiltIn(MeshViewIndicesNv) == Spv.MeshViewIndicesNv { }
  lemma AsRawBaryCoordKhr() ensures NativeBuiltIn(BaryCoordKhr) == Spv.BaryCoordKhr { }
  lemma AsRawBaryCoordNoPerspKhr() ensures NativeBuiltIn(BaryCoordNoPerspKhr) == Spv.BaryCoordNoPerspKhr { }
  lemma AsRawFragSizeExt() ensures NativeBuiltIn(FragSizeExt) == Spv.FragSizeExt { }
  lemma AsRawFragInvocationCountExt() ensures NativeBuiltIn(FragInvocationCountExt) == Spv.FragInvocationCountExt { }
  lemma AsRawPrimitivePointIndicesExt() ensures NativeBuiltIn(PrimitivePointIndicesExt) == Spv.PrimitivePointIndicesExt { }
  lemma AsRawPrimitiveLineIndicesExt() ensures NativeBuiltIn(PrimitiveLineIndicesExt) == Spv.PrimitiveLineIndicesExt { }
  lemma AsRawPrimitiveTriangleIndicesExt() ensures NativeBuiltIn(PrimitiveTriangleIndicesExt) == Spv.PrimitiveTriangleIndicesExt { }
  lemma AsRawCullPrimitiveExt() ensures NativeBuiltIn(CullPrimitiveExt) == Spv.CullPrimitiveExt { }
  lemma AsRawLaunchIdKhr() ensures NativeBuiltIn(LaunchIdKhr) == Spv.LaunchIdKhr { }
  lemma AsRawLaunchSizeKhr() ensures NativeBuiltIn(LaunchSizeKhr) == Spv.LaunchSizeKhr { }
  lemma AsRawWorldRayOriginKhr() ensures NativeBuiltIn(WorldRayOriginKhr) == Spv.WorldRayOriginKhr { }
  lemma AsRawWorldRayDirectionKhr() ensures NativeBuiltIn(WorldRayDirectionKhr) == Spv.WorldRayDirectionKhr { }
  lemma AsRawObjectRayOriginKhr() ensures NativeBuiltIn(ObjectRayOriginKhr) == Spv.ObjectRayOriginKhr { }
  lemma AsRawObjectRayDirectionKhr() ensures NativeBuiltIn(ObjectRayDirectionKhr) == Spv.ObjectRayDirectionKhr { }
  lemma AsRawRayTminKhr() ensures NativeBuiltIn(RayTminKhr) == Spv.RayTminKhr { }
  lemma AsRawRayTmaxKhr() ensures NativeBuiltIn(RayTmaxKhr) == Spv.RayTmaxKhr { }
  lemma AsRawInstanceCustomIndexKhr() ensures NativeBuiltIn(InstanceCustomIndexKhr) == Spv.InstanceCustomIndexKhr { }
  lemma AsRawObjectToWorldKhr() ensures NativeBuiltIn(ObjectToWorldKhr) == Spv.ObjectToWorldKhr { }
  lemma AsRawWorldToObjectKhr() ensures NativeBuiltIn(WorldToObjectKhr) == Spv.WorldToObjectKhr { }
  lemma AsRawHitTnv() ensures NativeBuiltIn(HitTnv) == Spv.HitTnv { }
  lemma AsRawHitKindKhr() ensures NativeBuiltIn(HitKindKhr) == Spv.HitKindKhr { }
  lemma AsRawCurrentRayTimeNv() ensures NativeBuiltIn(CurrentRayTimeNv) == Spv.CurrentRayTimeNv { }
  lemma AsRawIncomingRayFlagsKhr() ensures NativeBuiltIn(IncomingRayFlagsKhr) == Spv.IncomingRayFlagsKhr { }
  lemma AsRawRayGeometryIndexKhr() ensures NativeBuiltIn(RayGeometryIndexKhr) == Spv.RayGeometryIndexKhr { }
  lemma AsRawWarpsPerSmnv() ensures NativeBuiltIn(WarpsPerSmnv) == Spv.WarpsPerSmnv { }
  lemma AsRawSmCountNv() ensures NativeBuiltIn(SmCountNv) == Spv.SmCountNv { }
  lemma AsRawWarpIdnv() ensures NativeBuiltIn(WarpIdnv) == Spv.WarpIdnv { }
  lemma AsRawSmidnv() ensures NativeBuiltIn(Smidnv) == Spv.Smidnv { }
  lemma AsRawCullMaskKhr() ensures NativeBuiltIn(CullMaskKhr) == Spv.CullMaskKhr { }
  /** Distinct optional built-ins are encoded as distinct native members. */
  lemma BuiltInAsRawInjective(a: Option<BuiltIn>, b: Option<BuiltIn>)
    requires BuiltInAsRaw(a) == BuiltInAsRaw(b)
    ensures a == b
  {
    BuiltInAsRawSentinel(a);
    BuiltInAsRawSentinel(b);
    if a.Some? && b.Some? {
      BuiltInRoundTrip(a.value);
      BuiltInRoundTrip(b.value);
    }
  }

  /** `CombinedImageSampler`: three identifiers. */
  datatype CombinedImageSampler = CombinedImageSampler(combinedId: u32, imageId: u32, samplerId: u32)

  /** A work group size. */
  datatype WorkGroupSize = WorkGroupSize(x: u32, y: u32, z: u32)

  /** An entry point of a module. */
  datatype EntryPoint = EntryPoint(name: string, executionModel: Spv.ExecutionModel, workGroupSize: WorkGroupSize)

  /** The statically accessed range of one member of a buffer (`usize` offset and size). */
  datatype BufferRange = BufferRange(index: u32, offset: u64, range: u64)

  /** A shader resource. */
  datatype Resource = Resource(id: u32, typeId: u32, baseTypeId: u32, name: string)

  /** A built-in shader resource. */
  datatype BuiltInResource = BuiltInResource(builtin: BuiltIn, valueTypeId: u32, resource: Resource)

  /** A specialization constant reference. */
  datatype SpecializationConstant = SpecializationConstant(id: u32, constantId: u32)

  /** The specialization constants of the three work group dimensions. */
  datatype WorkGroupSizeSpecializationConstants =
    WorkGroupSizeSpecializationConstants(x: SpecializationConstant, y: SpecializationConstant, z: SpecializationConstant)

  /** The fifteen resource categories of a module. */
  datatype ShaderResources = ShaderResources(
    uniformBuffers: seq<Resource>,
    storageBuffers: seq<Resource>,
    stageInputs: seq<Resource>,
    stageOutputs: seq<Resource>,
    subpassInputs: seq<Resource>,
    storageImages: seq<Resource>,
    sampledImages: seq<Resource>,
    atomicCounters: seq<Resource>,
    accelerationStructures: seq<Resource>,
    pushConstantBuffers: seq<Resource>,
    shaderRecordBuffers: seq<Resource>,
    separateImages: seq<Resource>,
    separateSamplers: seq<Resource>,
    builtinInputs: seq<BuiltInResource>,
    builtinOutputs: seq<BuiltInResource>)

  /** The image part of an image or sampled-image type. */
  datatype ImageType = ImageType(
    typeId: u32, dim: Spv.Dim, depth: bool, arrayed: bool, ms: bool, sampled: u32, format: Spv.ImageFormat)

  /**
   * A reflected type. Variants that can be arrays carry the array dimensions
   * (`arrayDims`, outermost first) and, per dimension, whether its size is a literal.
   */
  datatype Type =
    | Unknown
    | Void
    | Boolean(vecsize: u32, columns: u32, arrayDims: seq<u32>, arraySizeLiteral: seq<bool>)
    | Char(arrayDims: seq<u32>, arraySizeLiteral: seq<bool>)
    | Int(vecsize: u32, columns: u32, arrayDims: seq<u32>, arraySizeLiteral: seq<bool>)
    | UInt(vecsize: u32, columns: u32, arrayDims: seq<u32>, arraySizeLiteral: seq<bool>)
    | Int64(vecsize: u32, arrayDims: seq<u32>, arraySizeLiteral: seq<bool>)
    | UInt64(vecsize: u32, arrayDims: seq<u32>, arraySizeLiteral: seq<bool>)
    | AtomicCounter(arrayDims: seq<u32>, arraySizeLiteral: seq<bool>)
    | Half(vecsize: u32, columns: u32, arrayDims: seq<u32>, arraySizeLiteral: seq<bool>)
    | Float(vecsize: u32, columns: u32, arrayDims: seq<u32>, arraySizeLiteral: seq<bool>)
    | Double(vecsize: u32, columns: u32, arrayDims: seq<u32>, arraySizeLiteral: seq<bool>)
    | Struct(memberTypes: seq<u32>, arrayDims: seq<u32>, arraySizeLiteral: seq<bool>)
    | Image(arrayDims: seq<u32>, arraySizeLiteral: seq<bool>, image: ImageType)
    | SampledImage(arrayDims: seq<u32>, arraySizeLiteral: seq<bool>, image: ImageType)
    | Sampler(arrayDims: seq<u32>, arraySizeLiteral: seq<bool>)
    | SByte(vecsize: u32, arrayDims: seq<u32>, arraySizeLiteral: seq<bool>)
    | UByte(vecsize: u32, arrayDims: seq<u32>, arraySizeLiteral: seq<bool>)
    | Short(vecsize: u32, arrayDims: seq<u32>, arraySizeLiteral: seq<bool>)
    | UShort(vecsize: u32, arrayDims: seq<u32>, arraySizeLiteral: seq<bool>)
    | ControlPointArray
    | AccelerationStructure
    | RayQuery
    | Interpolant
  {
    /** The variants that carry array dimensions. */
    predicate HasArray() {
      !(Unknown? || Void? || ControlPointArray? || AccelerationStructure? || RayQuery? || Interpolant?)
    }

    /** The variants that carry a vector width. */
    predicate HasVecsize() {
      Boolean? || Int? || UInt? || Int64? || UInt64? || Half? || Float? || Double?
      || SByte? || UByte? || Short? || UShort?
    }

    /** The variants that carry a column count. */
    predicate HasColumns() {
      Boolean? || Int? || UInt? || Half? || Float? || Double?
    }

    /** The variants that embed an image descriptor. */
    predicate HasImage() {
      Image? || SampledImage?
    }

    /** The native base-type tag of this variant. */
    function BaseType(): Spv.BaseType {
      match this
      case Unknown => Spv.Unknown
      case Void => Spv.Void
      case Boolean(_, _, _, _) => Spv.Boolean
      case Char(_, _) => Spv.Char
      case Int(_, _, _, _) => Spv.Int
      case UInt(_, _, _, _) => Spv.UInt
      case Int64(_, _, _) => Spv.Int64
      case UInt64(_, _, _) => Spv.UInt64
      case AtomicCounter(_, _) => Spv.AtomicCounter
      case Half(_, _, _, _) => Spv.Half
      case Float(_, _, _, _) => Spv.Float
      case Double(_, _, _, _) => Spv.Double
      case Struct(_, _, _) => Spv.Struct
      case Image(_, _, _) => Spv.Image
      case SampledImage(_, _, _) => Spv.SampledImage
      case Sampler(_, _) => Spv.Sampler
      case SByte(_, _, _) => Spv.SByte
      case UByte(_, _, _) => Spv.UByte
      case Short(_, _, _) => Spv.Short
      case UShort(_, _, _) => Spv.UShort
      case ControlPointArray => Spv.ControlPointArray
      case AccelerationStructure => Spv.AccelerationStructure
      case RayQuery => Spv.RayQuery
      case Interpolant => Spv.Interpolant
    }
  }

  /** A borrowed view of the words of one SPIR-V binary. */
  datatype Module = Module(words: seq<u32>)

  /** `Module::from_words`: the view holds exactly the given words. */
  function FromWords(words: seq<u32>): (m: Module)
    ensures m.words == words
  {
    Module(words)
  }
}
