/**
 * The native engine as the wrapper sees it. The engine itself is opaque: every
 * command answers with a status and, for variable-size results, with buffers that
 * the engine allocates and the wrapper must release with `free_pointer`.
 *
 * An `Engine` object stands for one native compiler instance. Its `heap` holds the
 * live native allocations the wrapper may read; its ghost `log` records every
 * command issued on the instance, in order, with the engine's status, its reply and
 * a snapshot of the live allocations right after the command.
 */
module Native {
  import opened Common
  import Spv

  /** An address of a native allocation; 0 is the null pointer. */
  type Ptr = nat

  /** A native status, already translated into the wrapper's error kinds. */
  datatype Status = Success | Failure(error: ErrorCode)

  /** `SPIRType_ImageType`. */
  datatype ImageTypeRaw = ImageTypeRaw(
    type_: u32, dim: Spv.Dim, depth: bool, arrayed: bool, ms: bool, sampled: u32, format: Spv.ImageFormat)

  /** `ScType`: the tag, the counts, and pointers to the variable-size parts. */
  datatype ScType = ScType(
    type_: Spv.BaseType,
    memberTypes: Ptr, memberTypesSize: nat,
    arrayDims: Ptr, arraySize: nat,
    arraySizeLiteral: Ptr,
    image: ImageTypeRaw,
    vecsize: u32, columns: u32)

  datatype ScEntryPoint = ScEntryPoint(
    name: Ptr, executionModel: Spv.ExecutionModel,
    workGroupSizeX: u32, workGroupSizeY: u32, workGroupSizeZ: u32)

  datatype ScBufferRange = ScBufferRange(index: u32, offset: u64, range: u64)

  datatype ScSpecializationConstant = ScSpecializationConstant(id: u32, constantId: u32)

  datatype ScResource = ScResource(id: u32, typeId: u32, baseTypeId: u32, name: Ptr)

  datatype ScBuiltInResource = ScBuiltInResource(builtin: Spv.BuiltIn, valueTypeId: u32, resource: ScResource)

  /** An `ScResource` built by the wrapper: its name is a C string the wrapper owns. */
  datatype ScResourceIn = ScResourceIn(id: u32, typeId: u32, baseTypeId: u32, name: CString)

  /** `ScResourceArray` / `ScBuiltInResourceArray`: a pointer and an element count. */
  datatype ScArray = ScArray(data: Ptr, num: nat)

  /** `ScShaderResources`: fifteen arrays, by value. */
  datatype ScShaderResources = ScShaderResources(
    uniformBuffers: ScArray, storageBuffers: ScArray, stageInputs: ScArray,
    stageOutputs: ScArray, subpassInputs: ScArray, storageImages: ScArray,
    sampledImages: ScArray, atomicCounters: ScArray, accelerationStructures: ScArray,
    pushConstantBuffers: ScArray, shaderRecordBuffers: ScArray, separateImages: ScArray,
    separateSamplers: ScArray, builtinInputs: ScArray, builtinOutputs: ScArray)
  {
    /** All fifteen categories, in declaration order; the last two are the built-ins. */
    function All(): seq<ScArray> {
      [uniformBuffers, storageBuffers, stageInputs, stageOutputs, subpassInputs,
       storageImages, sampledImages, atomicCounters, accelerationStructures,
       pushConstantBuffers, shaderRecordBuffers, separateImages, separateSamplers,
       builtinInputs, builtinOutputs]
    }
  }

  /** Opaque tags of the generated MSL enumerations (formats, rates, sampler settings). */
  datatype Tag = Tag(code: nat)

  /** A component swizzle: the fixed-size array of four `MSLComponentSwizzle` tags. */
  type Swizzle = s: seq<Tag> | |s| == 4 witness [Tag(0), Tag(0), Tag(0), Tag(0)]

  /** `MSLSamplerCompareFunc`. */
  datatype SamplerCompareFunc = Never | Less | LessEqual | Greater | GreaterEqual | Equal | NotEqual | Always

  /** `ScMslCompilerOptions`. */
  datatype ScMslCompilerOptions = ScMslCompilerOptions(
    vertexInvertY: bool,
    vertexTransformClipSpace: bool,
    platform: u8,
    version: u32,
    enablePointSizeBuiltin: bool,
    disableRasterization: bool,
    swizzleBufferIndex: u32,
    indirectParamsBufferIndex: u32,
    shaderOutputBufferIndex: u32,
    shaderPatchOutputBufferIndex: u32,
    shaderTessFactorBufferIndex: u32,
    bufferSizeBufferIndex: u32,
    captureOutputToBuffer: bool,
    swizzleTextureSamples: bool,
    tessDomainOriginLowerLeft: bool,
    argumentBuffers: bool,
    padFragmentOutputComponents: bool,
    forceNativeArrays: bool,
    forceZeroInitializedVariables: bool,
    forceActiveArgumentBufferResources: bool)

  /** `MSLResourceBinding`. */
  datatype MslResourceBinding = MslResourceBinding(
    stage: Spv.ExecutionModel, basetype: Spv.BaseType, descSet: u32, binding: u32,
    mslBuffer: u32, mslTexture: u32, mslSampler: u32, count: u32)

  /** `MSLShaderInterfaceVariable`. */
  datatype MslShaderInterfaceVariable = MslShaderInterfaceVariable(
    location: u32, component: u32, format: Tag, builtin: Spv.BuiltIn, vecsize: u32, rate: Tag)

  /**
   * `MSLConstexprSampler`. The two LOD clamps are `f32` on the native side; the
   * values sent are always a whole number of sixteenths, so they are kept here as
   * that number of sixteenths.
   */
  datatype MslConstexprSampler = MslConstexprSampler(
    coord: Tag, minFilter: Tag, magFilter: Tag, mipFilter: Tag,
    sAddress: Tag, tAddress: Tag, rAddress: Tag,
    compareFunc: SamplerCompareFunc, borderColor: Tag,
    lodClampMinSixteenths: u8, lodClampMaxSixteenths: u8,
    maxAnisotropy: i32,
    compareEnable: bool, lodClampEnable: bool, anisotropyEnable: bool,
    bpc: u32, chromaFilter: Tag, planes: u32, resolution: Tag, swizzle: Swizzle,
    xChromaOffset: Tag, yChromaOffset: Tag,
    ycbcrConversionEnable: bool, ycbcrModel: Tag, ycbcrRange: Tag)

  /** `ScMslConstSamplerMapping`. */
  datatype MslConstSamplerMapping = MslConstSamplerMapping(descSet: u32, binding: u32, sampler: MslConstexprSampler)

  /** The contents of one native allocation. */
  datatype Block =
    | CStr(text: Option<string>)    // a NUL-terminated string; None when it is not valid UTF-8
    | EntryPoints(entryPoints: seq<ScEntryPoint>)
    | BufferRanges(ranges: seq<ScBufferRange>)
    | SpecConstants(constants: seq<ScSpecializationConstant>)
    | Words(words: seq<u32>)
    | Flags(flags: seq<bool>)
    | TypeRecord(ty: ScType)
    | Resources(resources: seq<ScResource>)
    | BuiltInResources(builtins: seq<ScBuiltInResource>)

  /** A command of the boundary, with its arguments. */
  datatype Command =
    | MslNew(words: seq<u32>)
    | Delete
    | GetDecoration(id: u32, decoration: Spv.Decoration)
    | GetName(id: u32)
    | SetName(id: u32, name: CString)
    | SetMemberName(id: u32, index: u32, name: CString)
    | UnsetDecoration(id: u32, decoration: Spv.Decoration)
    | SetDecoration(id: u32, decoration: Spv.Decoration, argument: u32)
    | GetEntryPoints
    | GetActiveBufferRanges(id: u32)
    | GetCleansedEntryPointName(name: CString, model: Spv.ExecutionModel)
    | GetSpecializationConstants
    | SetScalarConstant(id: u32, highBits: u32, lowBits: u32)
    | GetType(id: u32)
    | GetMemberName(id: u32, index: u32)
    | GetMemberDecoration(id: u32, index: u32, decoration: Spv.Decoration)
    | SetMemberDecoration(id: u32, index: u32, decoration: Spv.Decoration, argument: u32)
    | GetDeclaredStructSize(id: u32)
    | GetDeclaredStructMemberSize(id: u32, index: u32)
    | GetShaderResources
    | GetActiveInterfaceVariables
    | RenameInterfaceVariable(resources: seq<ScResourceIn>, resourcesSize: nat, location: u32, name: CString)
    | GetWorkGroupSizeSpecializationConstants
    | MslSetEntryPoint(name: CString, model: Spv.ExecutionModel)
    | MslSetOptions(options: ScMslCompilerOptions)
    | MslCompile(
        vertexAttributes: seq<MslShaderInterfaceVariable>, vertexAttributesSize: nat,
        resourceBindings: seq<MslResourceBinding>, resourceBindingsSize: nat,
        constSamplers: seq<MslConstSamplerMapping>, constSamplersSize: nat)
    | MslGetIsRasterizationDisabled
    | GetAutomaticMslResourceBinding(id: u32)
    | FreePointer(ptr: Ptr)
  {
    /** Commands answered by a status alone. */
    predicate RepliesNothing() {
      SetName? || SetMemberName? || UnsetDecoration? || SetDecoration? || SetScalarConstant?
      || SetMemberDecoration? || RenameInterfaceVariable? || MslSetEntryPoint? || MslSetOptions?
    }

    /** Commands answered by one 32-bit word. */
    predicate RepliesWord() {
      GetDecoration? || GetMemberDecoration? || GetDeclaredStructSize?
      || GetDeclaredStructMemberSize? || GetAutomaticMslResourceBinding?
    }

    /** Commands answered by a freshly allocated string. */
    predicate RepliesString() {
      GetName? || GetMemberName? || GetCleansedEntryPointName? || MslCompile?
    }
  }

  /** What a command handed back besides its status. */
  datatype Reply =
    | NoReply
    | Word(word: u32)
    | Flag(flag: bool)
    | Pointer(ptr: Ptr)
    | Array(ptr: Ptr, length: nat)
    | ShaderResourcesReply(raw: ScShaderResources)

  /** One issued command: what was asked, the status, the reply, and the live allocations afterwards. */
  datatype Call = Call(cmd: Command, status: Status, reply: Reply, memory: map<Ptr, Block>)

  /** `frees` releases exactly the pointers `ptrs`, in that order. */
  ghost predicate FreesInOrder(frees: seq<Call>, ptrs: seq<Ptr>)
  {
    |frees| == |ptrs| && forall i :: 0 <= i < |ptrs| ==> frees[i].cmd == FreePointer(ptrs[i])
  }

  /** `now` is `before` extended by the allocations `added`, which were not live before. */
  ghost predicate Extends(before: map<Ptr, Block>, now: map<Ptr, Block>, added: set<Ptr>)
  {
    && now.Keys == before.Keys + added
    && added !! before.Keys
    && forall q :: q in before ==> now[q] == before[q]
  }

  /** Releasing everything an extension allocated gives back the original allocations. */
  lemma ReleaseAll(before: map<Ptr, Block>, now: map<Ptr, Block>, added: set<Ptr>)
    requires Extends(before, now, added)
    ensures now - added == before
  {
    assert (now - added).Keys == before.Keys;
  }

  /** The addresses `lo` up to, not including, `hi`. */
  ghost function Range(lo: nat, hi: nat): set<Ptr>
  {
    set q: nat | lo <= q < hi && Between(lo, q, hi)
  }

  ghost predicate Between(lo: nat, q: nat, hi: nat)
  {
    lo <= q < hi
  }

  /** The name pointers held by the elements of an array block. */
  function NamePtrs(b: Block): seq<Ptr>
  {
    match b
    case EntryPoints(es) => seq(|es|, i requires 0 <= i < |es| => es[i].name)
    case Resources(rs) => seq(|rs|, i requires 0 <= i < |rs| => rs[i].name)
    case BuiltInResources(bs) => seq(|bs|, i requires 0 <= i < |bs| => bs[i].resource.name)
    case _ => []
  }

  /** The number of elements of an array block. */
  function Length(b: Block): nat
  {
    match b
    case EntryPoints(es) => |es|
    case BufferRanges(rs) => |rs|
    case SpecConstants(cs) => |cs|
    case Words(ws) => |ws|
    case Flags(fs) => |fs|
    case Resources(rs) => |rs|
    case BuiltInResources(bs) => |bs|
    case _ => 0
  }

  /**
   * At `p` lives an array block of `n` elements whose element names are distinct
   * live strings, each allocated separately from the array.
   */
  ghost predicate NamedArrayAt(mem: map<Ptr, Block>, p: Ptr, n: nat)
  {
    && p in mem
    && Length(mem[p]) == n
    && |NamePtrs(mem[p])| == n
    && (forall i :: 0 <= i < n ==> NamePtrs(mem[p])[i] != p)
    && (forall i :: 0 <= i < n ==> NamePtrs(mem[p])[i] in mem && mem[NamePtrs(mem[p])[i]].CStr?)
    && (forall i, j :: 0 <= i < j < n ==> NamePtrs(mem[p])[i] != NamePtrs(mem[p])[j])
  }

  /** Everything a named array occupies: the array itself and every element name. */
  ghost function Footprint(mem: map<Ptr, Block>, p: Ptr): set<Ptr>
    requires p in mem
  {
    {p} + set i | 0 <= i < |NamePtrs(mem[p])| :: NamePtrs(mem[p])[i]
  }

  /** The block kind and length that an array-returning command answers with. */
  ghost predicate ArrayReplyShape(cmd: Command, b: Block, n: nat)
  {
    match cmd
    case GetActiveBufferRanges(_) => b.BufferRanges? && |b.ranges| == n
    case GetSpecializationConstants => b.SpecConstants? && |b.constants| == n
    case GetActiveInterfaceVariables => b.Words? && |b.words| == n
    case GetWorkGroupSizeSpecializationConstants => b.SpecConstants? && |b.constants| == n && n == 3
    case _ => false
  }

  /** The allocations an `ScType` answer comes with, besides the record itself. */
  ghost function TypeParts(t: ScType): set<Ptr>
  {
    (if t.memberTypesSize > 0 then {t.memberTypes} else {})
    + (if t.arraySize > 0 then {t.arrayDims, t.arraySizeLiteral} else {})
  }

  /** The parts of an `ScType` answer are live blocks of the advertised lengths. */
  ghost predicate TypePartsAt(mem: map<Ptr, Block>, t: ScType)
  {
    && (t.memberTypesSize > 0 ==>
          t.memberTypes in mem && mem[t.memberTypes].Words? && |mem[t.memberTypes].words| == t.memberTypesSize)
    && (t.arraySize > 0 ==>
          && t.arrayDims in mem && mem[t.arrayDims].Words? && |mem[t.arrayDims].words| == t.arraySize
          && t.arraySizeLiteral in mem && mem[t.arraySizeLiteral].Flags?
          && |mem[t.arraySizeLiteral].flags| == t.arraySize
          && t.arrayDims != t.arraySizeLiteral)
    && (t.memberTypesSize > 0 && t.arraySize > 0 ==>
          t.memberTypes != t.arrayDims && t.memberTypes != t.arraySizeLiteral)
  }

  /** At `p` lives an `ScType` record, apart from its parts, whose parts are in place. */
  ghost predicate TypeRecordAt(mem: map<Ptr, Block>, p: Ptr)
  {
    && p in mem && mem[p].TypeRecord?
    && p !in TypeParts(mem[p].ty)
    && TypePartsAt(mem, mem[p].ty)
  }

  /** A category array of `ScShaderResources`: plain resources, or built-ins that are never `Max`. */
  ghost predicate CategoryAt(mem: map<Ptr, Block>, a: ScArray, builtin: bool)
  {
    && NamedArrayAt(mem, a.data, a.num)
    && (if builtin then mem[a.data].BuiltInResources? else mem[a.data].Resources?)
    && (builtin ==> forall i :: 0 <= i < a.num ==> mem[a.data].builtins[i].builtin != Spv.Max)
  }

  /** The record whose categories, in declaration order, are `arrays`. */
  function FromCategories(arrays: seq<ScArray>): (r: ScShaderResources)
    requires |arrays| == 15
    ensures r.All() == arrays
  {
    ScShaderResources(
      arrays[0], arrays[1], arrays[2], arrays[3], arrays[4], arrays[5], arrays[6], arrays[7],
      arrays[8], arrays[9], arrays[10], arrays[11], arrays[12], arrays[13], arrays[14])
  }

  /** Extensions compose: what two successive extensions allocated, taken together. */
  lemma ExtendsTrans(m0: map<Ptr, Block>, m1: map<Ptr, Block>, m2: map<Ptr, Block>, lo: nat, mid: nat, hi: nat)
    requires lo <= mid <= hi
    requires Extends(m0, m1, Range(lo, mid)) && Extends(m1, m2, Range(mid, hi))
    ensures Extends(m0, m2, Range(lo, hi))
  {
    assert Range(lo, mid) + Range(mid, hi) == Range(lo, hi);
  }

  /** An array at `lo + |names|` whose names sit at `lo`, `lo + 1`, ... occupies exactly `lo` up to itself. */
  lemma FootprintOfNames(mem: map<Ptr, Block>, p: Ptr, names: seq<Ptr>, lo: nat)
    requires p in mem && NamePtrs(mem[p]) == names && p == lo + |names|
    requires forall i :: 0 <= i < |names| ==> names[i] == lo + i
    ensures Footprint(mem, p) == Range(lo, p + 1)
  {
    forall q | q in Range(lo, p + 1)
      ensures q in Footprint(mem, p)
    {
      if q != p {
        assert q == names[q - lo];
      }
    }
  }

  /** A category array that was live before an extension is unchanged by it. */
  lemma CategoryKept(before: map<Ptr, Block>, now: map<Ptr, Block>, added: set<Ptr>, a: ScArray, builtin: bool)
    requires Extends(before, now, added) && CategoryAt(before, a, builtin)
    ensures CategoryAt(now, a, builtin) && Footprint(now, a.data) == Footprint(before, a.data)
  {
  }

  /**
   * The layout of a successful `ScShaderResources` answer: every category is a live
   * named array, category `k` occupies exactly the addresses `bounds[k]` up to
   * `bounds[k + 1]`, and nothing else was allocated.
   */
  ghost predicate ResourcesLaidOut(before: map<Ptr, Block>, now: map<Ptr, Block>, raw: ScShaderResources, bounds: seq<nat>)
  {
    && |bounds| == 16
    && CategoriesLaidOut(now, raw.All(), bounds)
    && Extends(before, now, Range(bounds[0], bounds[15]))
  }

  /** Category `k` of `arrays` is a live named array occupying exactly `bounds[k]` up to `bounds[k + 1]`. */
  ghost predicate CategoriesLaidOut(mem: map<Ptr, Block>, arrays: seq<ScArray>, bounds: seq<nat>)
  {
    && |bounds| == |arrays| + 1
    && (forall k :: 0 <= k < |arrays| ==> bounds[k] <= bounds[k + 1])
    && (forall k :: 0 <= k < |arrays| ==>
          CategoryAt(mem, arrays[k], k >= 13) && Footprint(mem, arrays[k].data) == Range(bounds[k], bounds[k + 1]))
  }

  /** A layout grows by one category placed right after the last. */
  lemma LaidOutAppend(mem: map<Ptr, Block>, arrays: seq<ScArray>, bounds: seq<nat>, a: ScArray, hi: nat)
    requires CategoriesLaidOut(mem, arrays, bounds) && bounds[|arrays|] <= hi
    requires CategoryAt(mem, a, |arrays| >= 13) && Footprint(mem, a.data) == Range(bounds[|arrays|], hi)
    ensures CategoriesLaidOut(mem, arrays + [a], bounds + [hi])
  {
  }

  /** A layout survives an extension of the heap. */
  lemma LaidOutKept(before: map<Ptr, Block>, now: map<Ptr, Block>, added: set<Ptr>, arrays: seq<ScArray>, bounds: seq<nat>)
    requires Extends(before, now, added) && CategoriesLaidOut(before, arrays, bounds)
    ensures CategoriesLaidOut(now, arrays, bounds)
  {
    forall k | 0 <= k < |arrays|
      ensures CategoryAt(now, arrays[k], k >= 13) && Footprint(now, arrays[k].data) == Range(bounds[k], bounds[k + 1])
    {
      CategoryKept(before, now, added, arrays[k], k >= 13);
    }
  }

  /** The kinds of named arrays the engine hands out. */
  datatype NamedKind = EntryPointKind | ResourceKind | BuiltInKind

  ghost predicate OfKind(b: Block, kind: NamedKind)
  {
    match kind
    case EntryPointKind => b.EntryPoints?
    case ResourceKind => b.Resources?
    case BuiltInKind => b.BuiltInResources? && forall i :: 0 <= i < |b.builtins| ==> b.builtins[i].builtin != Spv.Max
  }

  /**
   * One native compiler instance: its live allocations, the next free address,
   * whether it has been deleted, and the ghost log of every command issued on it.
   */
  class Engine {
    var heap: map<Ptr, Block>
    var next: Ptr
    var deleted: bool
    ghost var log: seq<Call>

    /** Every live allocation lies below the next free address, and none is null. */
    ghost predicate Valid()
      reads this
    {
      0 < next && forall q :: q in heap ==> 0 < q < next
    }

    constructor (words: seq<u32>)
      ensures Valid() && !deleted && heap == map[]
      ensures log == [Call(MslNew(words), Success, NoReply, map[])]
    {
      heap := map[];
      next := 1;
      deleted := false;
      log := [Call(MslNew(words), Success, NoReply, map[])];
    }

    /** `sc_internal_compiler_msl_new`: an instance exists exactly when the engine reports success. */
    static method MslNewInstance(words: seq<u32>) returns (st: Status, e: Engine?)
      ensures st.Success? <==> e != null
      ensures e != null ==> fresh(e) && e.Valid() && !e.deleted && e.heap == map[]
      ensures e != null ==> e.log == [Call(MslNew(words), Success, NoReply, map[])]
    {
      st :| true;
      if st.Success? {
        e := new Engine(words);
      } else {
        e := null;
      }
    }

    /** A fresh allocation holding `b`. */
    method Alloc(b: Block) returns (p: Ptr)
      requires Valid()
      modifies this
      ensures Valid() && deleted == old(deleted) && log == old(log)
      ensures p == old(next) && next == old(next) + 1
      ensures p !in old(heap) && heap == old(heap)[p := b]
    {
      p := next;
      heap := heap[p := b];
      next := next + 1;
    }

    /** `n` fresh strings at consecutive addresses. */
    method AllocNames(n: nat) returns (names: seq<Ptr>)
      requires Valid()
      modifies this
      ensures Valid() && deleted == old(deleted) && log == old(log)
      ensures next == old(next) + n && |names| == n
      ensures forall i :: 0 <= i < n ==> names[i] == old(next) + i
      ensures Extends(old(heap), heap, Range(old(next), next))
      ensures forall i :: 0 <= i < n ==> names[i] in heap && heap[names[i]].CStr?
    {
      names := [];
      while |names| < n
        invariant Valid() && deleted == old(deleted) && log == old(log)
        invariant |names| <= n && next == old(next) + |names|
        invariant forall i :: 0 <= i < |names| ==> names[i] == old(next) + i
        invariant Extends(old(heap), heap, Range(old(next), next))
        invariant forall i :: 0 <= i < |names| ==> names[i] in heap && heap[names[i]].CStr?
      {
        var text: Option<string> :| true;
        var p := Alloc(CStr(text));
        assert Range(old(next), next) == Range(old(next), p) + {p};
        names := names + [p];
      }
    }

    /** An array block of the given kind whose element names are `names`; the other fields are the engine's. */
    method NamedBlock(kind: NamedKind, names: seq<Ptr>) returns (b: Block)
      ensures NamePtrs(b) == names && Length(b) == |names| && OfKind(b, kind)
    {
      var n := |names|;
      match kind {
        case EntryPointKind =>
          var raw: seq<ScEntryPoint> := seq(n, _ => ScEntryPoint(0, Spv.ExecutionModel(0), 0, 0, 0));
          assert |raw| == n;
          raw :| |raw| == n;
          b := EntryPoints(seq(n, i requires 0 <= i < n => raw[i].(name := names[i])));
        case ResourceKind =>
          var raw: seq<ScResource> := seq(n, _ => ScResource(0, 0, 0, 0));
          assert |raw| == n;
          raw :| |raw| == n;
          b := Resources(seq(n, i requires 0 <= i < n => raw[i].(name := names[i])));
        case BuiltInKind =>
          var raw: seq<ScBuiltInResource> := seq(n, _ => ScBuiltInResource(Spv.Position, 0, ScResource(0, 0, 0, 0)));
          assert |raw| == n && forall i :: 0 <= i < n ==> raw[i].builtin != Spv.Max;
          raw :| |raw| == n && forall i :: 0 <= i < n ==> raw[i].builtin != Spv.Max;
          b := BuiltInResources(seq(n, i requires 0 <= i < n =>
                 raw[i].(resource := raw[i].resource.(name := names[i]))));
      }
    }

    /** A named array of `n` elements: the names first, then the array itself. */
    method AllocNamed(kind: NamedKind) returns (p: Ptr, n: nat)
      requires Valid()
      modifies this
      ensures Valid() && deleted == old(deleted) && log == old(log)
      ensures NamedArrayAt(heap, p, n) && OfKind(heap[p], kind)
      ensures Footprint(heap, p) == Range(old(next), next)
      ensures Extends(old(heap), heap, Range(old(next), next))
    {
      n :| true;
      var names := AllocNames(n);
      var b := NamedBlock(kind, names);
      ghost var mid := next;
      p := Alloc(b);
      assert Range(old(next), next) == Range(old(next), mid) + {p};
      FootprintOfNames(heap, p, names, old(next));
    }

    /** A command answered by a status alone; it allocates nothing. */
    method Invoke(cmd: Command) returns (st: Status)
      requires Valid() && !deleted && cmd.RepliesNothing()
      modifies this
      ensures Valid() && !deleted && heap == old(heap)
      ensures log == old(log) + [Call(cmd, st, NoReply, heap)]
    {
      st :| true;
      log := log + [Call(cmd, st, NoReply, heap)];
    }

    /** A command answered by one 32-bit word; it allocates nothing. */
    method InvokeWord(cmd: Command) returns (st: Status, w: u32)
      requires Valid() && !deleted && cmd.RepliesWord()
      modifies this
      ensures Valid() && !deleted && heap == old(heap)
      ensures log == old(log) + [Call(cmd, st, Word(w), heap)]
    {
      st :| true;
      w :| true;
      log := log + [Call(cmd, st, Word(w), heap)];
    }

    /** `sc_internal_compiler_msl_get_is_rasterization_disabled`. */
    method GetIsRasterizationDisabled() returns (st: Status, disabled: bool)
      requires Valid() && !deleted
      modifies this
      ensures Valid() && !deleted && heap == old(heap)
      ensures log == old(log) + [Call(MslGetIsRasterizationDisabled, st, Flag(disabled), heap)]
    {
      st :| true;
      disabled :| true;
      log := log + [Call(MslGetIsRasterizationDisabled, st, Flag(disabled), heap)];
    }

    /** A command answered by a freshly allocated string, on success only. */
    method InvokeString(cmd: Command) returns (st: Status, p: Ptr)
      requires Valid() && !deleted && cmd.RepliesString()
      modifies this
      ensures Valid() && !deleted
      ensures st.Success? ==> Extends(old(heap), heap, {p}) && heap[p].CStr?
      ensures !st.Success? ==> heap == old(heap)
      ensures log == old(log) + [Call(cmd, st, Pointer(p), heap)]
    {
      st :| true;
      p := 0;
      if st.Success? {
        var text: Option<string> :| true;
        p := Alloc(CStr(text));
        assert Range(old(next), next) == {p};
      }
      log := log + [Call(cmd, st, Pointer(p), heap)];
    }

    /** `sc_internal_compiler_get_entry_points`: an array of entry points, each with its own name string. */
    method InvokeEntryPoints() returns (st: Status, p: Ptr, n: nat)
      requires Valid() && !deleted
      modifies this
      ensures Valid() && !deleted
      ensures st.Success? ==>
        NamedArrayAt(heap, p, n) && heap[p].EntryPoints? && Extends(old(heap), heap, Footprint(heap, p))
      ensures !st.Success? ==> heap == old(heap)
      ensures log == old(log) + [Call(GetEntryPoints, st, Array(p, n), heap)]
    {
      st :| true;
      p, n := 0, 0;
      if st.Success? {
        p, n := AllocNamed(EntryPointKind);
      }
      log := log + [Call(GetEntryPoints, st, Array(p, n), heap)];
    }

    /** A command answered by one array of plain records, on success only. */
    method InvokeArray(cmd: Command) returns (st: Status, p: Ptr, n: nat)
      requires Valid() && !deleted
      requires cmd.GetActiveBufferRanges? || cmd.GetSpecializationConstants?
               || cmd.GetActiveInterfaceVariables? || cmd.GetWorkGroupSizeSpecializationConstants?
      modifies this
      ensures Valid() && !deleted
      ensures st.Success? ==> Extends(old(heap), heap, {p}) && ArrayReplyShape(cmd, heap[p], n)
      ensures !st.Success? ==> heap == old(heap)
      ensures log == old(log) + [Call(cmd, st, Array(p, n), heap)]
    {
      st :| true;
      p, n := 0, 0;
      if st.Success? {
        var b: Block;
        if cmd.GetWorkGroupSizeSpecializationConstants? {
          n := 3;
        } else {
          n :| true;
        }
        if cmd.GetActiveBufferRanges? {
          var rs: seq<ScBufferRange> := seq(n, _ => ScBufferRange(0, 0, 0));
          assert |rs| == n;
          rs :| |rs| == n;
          b := BufferRanges(rs);
        } else if cmd.GetActiveInterfaceVariables? {
          var ws: seq<u32> := seq(n, _ => 0);
          assert |ws| == n;
          ws :| |ws| == n;
          b := Words(ws);
        } else {
          var cs: seq<ScSpecializationConstant> := seq(n, _ => ScSpecializationConstant(0, 0));
          assert |cs| == n;
          cs :| |cs| == n;
          b := SpecConstants(cs);
        }
        p := Alloc(b);
        assert Range(old(next), next) == {p};
      }
      log := log + [Call(cmd, st, Array(p, n), heap)];
    }

    /** `sc_internal_compiler_get_type`: the record, plus its member-type and array parts when non-empty. */
    method InvokeType(id: u32) returns (st: Status, p: Ptr)
      requires Valid() && !deleted
      modifies this
      ensures Valid() && !deleted
      ensures st.Success? ==> TypeRecordAt(heap, p) && Extends(old(heap), heap, {p} + TypeParts(heap[p].ty))
      ensures !st.Success? ==> heap == old(heap)
      ensures log == old(log) + [Call(GetType(id), st, Pointer(p), heap)]
    {
      st :| true;
      p := 0;
      if st.Success? {
        var t: ScType :| true;
        t := AllocTypeParts(t);
        ghost var mid := heap;
        p := Alloc(TypeRecord(t));
        assert TypePartsAt(heap, t) by {
          assert forall q :: q in mid ==> heap[q] == mid[q];
        }
      }
      log := log + [Call(GetType(id), st, Pointer(p), heap)];
    }

    /** The member-type and array parts of `t`, each allocated only when non-empty. */
    method AllocTypeParts(t: ScType) returns (u: ScType)
      requires Valid()
      modifies this
      ensures Valid() && deleted == old(deleted) && log == old(log)
      ensures u.memberTypesSize == t.memberTypesSize && u.arraySize == t.arraySize
      ensures TypePartsAt(heap, u) && old(next) <= next
      ensures Extends(old(heap), heap, TypeParts(u)) && TypeParts(u) <= Range(old(next), next)
    {
      u := t;
      var members: seq<u32> := seq(t.memberTypesSize, _ => 0);
      assert |members| == t.memberTypesSize;
      members :| |members| == t.memberTypesSize;
      var dims: seq<u32> := seq(t.arraySize, _ => 0);
      assert |dims| == t.arraySize;
      dims :| |dims| == t.arraySize;
      var literal: seq<bool> := seq(t.arraySize, _ => false);
      assert |literal| == t.arraySize;
      literal :| |literal| == t.arraySize;
      if t.memberTypesSize > 0 {
        var q := Alloc(Words(members));
        u := u.(memberTypes := q);
      }
      if t.arraySize > 0 {
        var q := Alloc(Words(dims));
        var r := Alloc(Flags(literal));
        u := u.(arrayDims := q, arraySizeLiteral := r);
      }
    }

    /** Fifteen named arrays laid out one after another: thirteen plain, then two of built-ins. */
    method AllocCategories() returns (arrays: seq<ScArray>, ghost bounds: seq<nat>)
      requires Valid()
      modifies this
      ensures Valid() && deleted == old(deleted) && log == old(log)
      ensures |arrays| == 15 && CategoriesLaidOut(heap, arrays, bounds)
      ensures bounds[0] == old(next) && Extends(old(heap), heap, Range(bounds[0], bounds[15]))
    {
      arrays := [];
      bounds := [next];
      while |arrays| < 15
        invariant Valid() && deleted == old(deleted) && log == old(log)
        invariant |arrays| <= 15 && CategoriesLaidOut(heap, arrays, bounds) && bounds[|arrays|] == next
        invariant bounds[0] == old(next) <= next && Extends(old(heap), heap, Range(bounds[0], next))
      {
        ghost var before := heap;
        ghost var mid := next;
        var a := AllocCategory(|arrays| >= 13);
        LaidOutKept(before, heap, Range(mid, next), arrays, bounds);
        ExtendsTrans(old(heap), before, heap, bounds[0], mid, next);
        LaidOutAppend(heap, arrays, bounds, a, next);
        arrays := arrays + [a];
        bounds := bounds + [next];
      }
    }

    /** One category array, placed at the next free addresses. */
    method AllocCategory(builtin: bool) returns (a: ScArray)
      requires Valid()
      modifies this
      ensures Valid() && deleted == old(deleted) && log == old(log) && old(next) <= next
      ensures CategoryAt(heap, a, builtin) && Footprint(heap, a.data) == Range(old(next), next)
      ensures Extends(old(heap), heap, Range(old(next), next))
    {
      var p, n := AllocNamed(if builtin then BuiltInKind else ResourceKind);
      assert p in Range(old(next), next);
      a := ScArray(p, n);
    }

    /**
     * `sc_internal_compiler_get_shader_resources`: fifteen named arrays. Category `k`
     * occupies exactly the addresses `bounds[k]` up to `bounds[k + 1]`, so the
     * categories never share an allocation.
     */
    method InvokeShaderResources() returns (st: Status, raw: ScShaderResources, ghost bounds: seq<nat>)
      requires Valid() && !deleted
      modifies this
      ensures Valid() && !deleted
      ensures st.Success? ==> ResourcesLaidOut(old(heap), heap, raw, bounds)
      ensures !st.Success? ==> heap == old(heap)
      ensures log == old(log) + [Call(GetShaderResources, st, ShaderResourcesReply(raw), heap)]
    {
      st :| true;
      var none := ScArray(0, 0);
      raw := ScShaderResources(none, none, none, none, none, none, none, none, none, none, none, none, none, none, none);
      bounds := [];
      if st.Success? {
        var arrays;
        arrays, bounds := AllocCategories();
        raw := FromCategories(arrays);
      }
      log := log + [Call(GetShaderResources, st, ShaderResourcesReply(raw), heap)];
    }

    /** `sc_internal_free_pointer`: releases one live allocation. */
    method Free(p: Ptr)
      requires Valid() && !deleted && p in heap
      modifies this
      ensures Valid() && !deleted && heap == old(heap) - {p}
      ensures log == old(log) + [Call(FreePointer(p), Success, NoReply, heap)]
    {
      heap := heap - {p};
      log := log + [Call(FreePointer(p), Success, NoReply, heap)];
    }

    /** `sc_internal_compiler_delete`: ends the instance; nothing may be issued on it afterwards. */
    method Delete()
      requires Valid() && !deleted
      modifies this
      ensures Valid() && deleted && heap == old(heap)
      ensures log == old(log) + [Call(Command.Delete, Success, NoReply, heap)]
    {
      deleted := true;
      log := log + [Call(Command.Delete, Success, NoReply, heap)];
    }
  }
}
