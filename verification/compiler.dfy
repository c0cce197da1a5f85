/**
 * The compiler wrapper of `compiler.rs`: the conversions from native records into
 * the public ones, and the `Compiler` handle whose every query issues one native
 * command, copies what it answers into owned values, and releases the native
 * buffers it was handed.
 */
module Compiler {
  import opened Common
  import Spv
  import Spirv
  import opened Native

  /** `ImageType::from_raw`. */
  function ImageTypeFromRaw(t: ImageTypeRaw): (r: Spirv.ImageType)
    ensures ImageTypeAsRaw(r) == t
  {
    Spirv.ImageType(t.type_, t.dim, t.depth, t.arrayed, t.ms, t.sampled, t.format)
  }

  /** The native image descriptor a public one was made from. */
  function ImageTypeAsRaw(r: Spirv.ImageType): (t: ImageTypeRaw)
  {
    ImageTypeRaw(r.typeId, r.dim, r.depth, r.arrayed, r.ms, r.sampled, r.format)
  }

  /** `ImageType::from_raw` loses nothing: the native descriptor can be rebuilt from the public one. */
  lemma ImageTypeLossless(t: ImageTypeRaw)
    ensures ImageTypeAsRaw(ImageTypeFromRaw(t)) == t
    ensures forall u :: ImageTypeFromRaw(u) == ImageTypeFromRaw(t) ==> u == t
  {
    forall u | ImageTypeFromRaw(u) == ImageTypeFromRaw(t)
      ensures u == t
    {
      assert ImageTypeAsRaw(ImageTypeFromRaw(u)) == u;
    }
  }

  /**
   * `Type::from_raw`: the variant is the one the tag names, and it carries exactly
   * the given fields it has room for.
   */
  function TypeFromRaw(
    tag: Spv.BaseType, vecsize: u32, columns: u32, memberTypes: seq<u32>,
    arrayDims: seq<u32>, arraySizeLiteral: seq<bool>, image: ImageTypeRaw): (r: Spirv.Type)
    ensures r.BaseType() == tag
    ensures r.HasArray() ==> r.arrayDims == arrayDims && r.arraySizeLiteral == arraySizeLiteral
    ensures r.HasVecsize() ==> r.vecsize == vecsize
    ensures r.HasColumns() ==> r.columns == columns
    ensures r.Struct? ==> r.memberTypes == memberTypes
    ensures r.HasImage() ==> r.image == ImageTypeFromRaw(image)
  {
    match tag
    case Unknown => Spirv.Unknown
    case Void => Spirv.Void
    case Boolean => Spirv.Boolean(vecsize, columns, arrayDims, arraySizeLiteral)
    case Char => Spirv.Char(arrayDims, arraySizeLiteral)
    case Int => Spirv.Int(vecsize, columns, arrayDims, arraySizeLiteral)
    case UInt => Spirv.UInt(vecsize, columns, arrayDims, arraySizeLiteral)
    case Int64 => Spirv.Int64(vecsize, arrayDims, arraySizeLiteral)
    case UInt64 => Spirv.UInt64(vecsize, arrayDims, arraySizeLiteral)
    case AtomicCounter => Spirv.AtomicCounter(arrayDims, arraySizeLiteral)
    case Half => Spirv.Half(vecsize, columns, arrayDims, arraySizeLiteral)
    case Float => Spirv.Float(vecsize, columns, arrayDims, arraySizeLiteral)
    case Double => Spirv.Double(vecsize, columns, arrayDims, arraySizeLiteral)
    case Struct => Spirv.Struct(memberTypes, arrayDims, arraySizeLiteral)
    case Image => Spirv.Image(arrayDims, arraySizeLiteral, ImageTypeFromRaw(image))
    case SampledImage => Spirv.SampledImage(arrayDims, arraySizeLiteral, ImageTypeFromRaw(image))
    case Sampler => Spirv.Sampler(arrayDims, arraySizeLiteral)
    case SByte => Spirv.SByte(vecsize, arrayDims, arraySizeLiteral)
    case UByte => Spirv.UByte(vecsize, arrayDims, arraySizeLiteral)
    case Short => Spirv.Short(vecsize, arrayDims, arraySizeLiteral)
    case UShort => Spirv.UShort(vecsize, arrayDims, arraySizeLiteral)
    case ControlPointArray => Spirv.ControlPointArray
    case AccelerationStructure => Spirv.AccelerationStructure
    case RayQuery => Spirv.RayQuery
    case Interpolant => Spirv.Interpolant
  }

  /**
   * Which fields each tag keeps: the field-free tags carry nothing; every other
   * tag carries the arrays; the 64-bit and small integers drop `columns`; `Char`,
   * `AtomicCounter` and `Sampler` drop `vecsize` and `columns`.
   */
  lemma TypeFromRawShape(
    tag: Spv.BaseType, vecsize: u32, columns: u32, memberTypes: seq<u32>,
    arrayDims: seq<u32>, arraySizeLiteral: seq<bool>, image: ImageTypeRaw)
    ensures var r := TypeFromRaw(tag, vecsize, columns, memberTypes, arrayDims, arraySizeLiteral, image);
      && (r.HasArray() <==> !(tag in {Spv.Unknown, Spv.Void, Spv.ControlPointArray,
                                       Spv.AccelerationStructure, Spv.RayQuery, Spv.Interpolant}))
      && (r.HasColumns() <==> tag in {Spv.Boolean, Spv.Int, Spv.UInt, Spv.Half, Spv.Float, Spv.Double})
      && (r.HasVecsize() <==> (r.HasColumns() || tag in {Spv.Int64, Spv.UInt64, Spv.SByte, Spv.UByte, Spv.Short, Spv.UShort}))
      && (r.HasImage() <==> tag in {Spv.Image, Spv.SampledImage})
  {
  }

  /** The two halves `set_scalar_constant` sends: `value >> 32` and the low 32 bits. */
  function SplitScalar(value: u64): (r: (u32, u32))
    ensures r.0 * TWO_POW_32 + r.1 == value
  {
    assert value / TWO_POW_32 < TWO_POW_32;
    (value / TWO_POW_32, value % TWO_POW_32)
  }

  /** The split is the unique one: any two 32-bit halves of `value` are these. */
  lemma SplitScalarUnique(value: u64, hi: u32, lo: u32)
    requires hi * TWO_POW_32 + lo == value
    ensures SplitScalar(value) == (hi, lo)
  {
  }

  // ----- What a query leaves behind: the issued command, its answer, and the frees -----

  /** `after` is `before` followed by the command `cmd` and then possibly more calls. */
  ghost predicate Issued(before: seq<Call>, after: seq<Call>, cmd: Command)
  {
    |after| > |before| && after[..|before|] == before && after[|before|].cmd == cmd
  }

  /** The calls issued after the query's own command. */
  ghost function Rest(before: seq<Call>, after: seq<Call>): seq<Call>
    requires |after| > |before|
  {
    after[|before| + 1..]
  }

  /** The set of pointers in `ptrs`. */
  ghost function Freed(ptrs: seq<Ptr>): set<Ptr>
  {
    set q | q in ptrs
  }

  /** The text of the string at `q`, or `None` when it is not valid UTF-8. */
  ghost function Text(mem: map<Ptr, Block>, q: Ptr): Option<string>
  {
    if q in mem && mem[q].CStr? then mem[q].text else None
  }

  /** The text of the string at `q`, or the empty string. */
  ghost function TextOrEmpty(mem: map<Ptr, Block>, q: Ptr): string
  {
    match Text(mem, q)
    case Some(t) => t
    case None => ""
  }

  /**
   * How many of `names` are read before the first one that is not valid UTF-8: the
   * index of that name, or the number of names when every one is valid.
   */
  ghost function ReadableCount(mem: map<Ptr, Block>, names: seq<Ptr>): (k: nat)
    ensures k <= |names|
    ensures forall i :: 0 <= i < k ==> Text(mem, names[i]).Some?
    ensures k < |names| ==> Text(mem, names[k]).None?
  {
    if |names| == 0 then 0
    else if Text(mem, names[0]).None? then 0
    else 1 + ReadableCount(mem, names[1..])
  }

  /** The outcome of a status-only command. */
  ghost function StatusOutcome(c: Call): Outcome
  {
    if c.status.Failure? then Fail(c.status.error) else Pass
  }

  /** A status-only command was issued once, and nothing was allocated or released. */
  ghost predicate StatusQuery(
    log0: seq<Call>, log1: seq<Call>, heap0: map<Ptr, Block>, heap1: map<Ptr, Block>, cmd: Command, r: Outcome)
  {
    && Issued(log0, log1, cmd) && |log1| == |log0| + 1
    && r == StatusOutcome(log1[|log0|])
    && heap1 == heap0
  }

  /** The value a one-word query returns. */
  ghost function WordOutcome(c: Call): Result<u32>
  {
    if c.status.Failure? then Err(c.status.error)
    else if c.reply.Word? then Ok(c.reply.word)
    else Err(Unhandled)
  }

  /** A one-word query was issued once, and nothing was allocated or released. */
  ghost predicate WordQuery(
    log0: seq<Call>, log1: seq<Call>, heap0: map<Ptr, Block>, heap1: map<Ptr, Block>, cmd: Command, r: Result<u32>)
  {
    && Issued(log0, log1, cmd) && |log1| == |log0| + 1
    && r == WordOutcome(log1[|log0|])
    && heap1 == heap0
  }

  /** The value a string query returns: the text, `Unhandled` when it is not valid UTF-8. */
  ghost function StringOutcome(c: Call): Result<string>
  {
    if c.status.Failure? then Err(c.status.error)
    else if c.reply.Pointer? && Text(c.memory, c.reply.ptr).Some? then Ok(Text(c.memory, c.reply.ptr).value)
    else Err(Unhandled)
  }

  /**
   * A string query was issued once; a string it reads successfully is then released,
   * so only an unreadable string stays allocated.
   */
  ghost predicate StringQuery(
    log0: seq<Call>, log1: seq<Call>, heap0: map<Ptr, Block>, heap1: map<Ptr, Block>, cmd: Command, r: Result<string>)
  {
    && Issued(log0, log1, cmd)
    && var c := log1[|log0|];
    && r == StringOutcome(c)
    && FreesInOrder(Rest(log0, log1), if r.Ok? then [c.reply.ptr] else [])
    && heap1 == (if c.status.Success? && r.Err? then c.memory else heap0)
  }

  /** Nothing was issued and nothing was allocated or released. */
  ghost predicate Untouched(log0: seq<Call>, log1: seq<Call>, heap0: map<Ptr, Block>, heap1: map<Ptr, Block>)
  {
    log1 == log0 && heap1 == heap0
  }

  /** The public result of a status. */
  function OutcomeOf(st: Status): (r: Outcome)
    ensures r.Pass? <==> st.Success?
    ensures st.Failure? ==> r.error == st.error
  {
    if st.Failure? then Fail(st.error) else Pass
  }

  /** Releasing two lists of pointers is releasing their concatenation. */
  lemma FreedConcat(a: seq<Ptr>, b: seq<Ptr>)
    ensures Freed(a + b) == Freed(a) + Freed(b)
  {
  }

  /** The names of the named array at `p`. */
  ghost function Names(mem: map<Ptr, Block>, p: Ptr): seq<Ptr>
    requires p in mem
  {
    NamePtrs(mem[p])
  }

  /** What reading the named array at `p` releases, in order: each name read, then the array. */
  ghost function NamedArrayFrees(mem: map<Ptr, Block>, p: Ptr): seq<Ptr>
    requires p in mem
  {
    Names(mem, p)[..ReadableCount(mem, Names(mem, p))] + [p]
  }

  /** Whether every name of the named array at `p` is valid UTF-8. */
  ghost predicate AllNamesReadable(mem: map<Ptr, Block>, p: Ptr)
    requires p in mem
  {
    ReadableCount(mem, Names(mem, p)) == |Names(mem, p)|
  }

  /** When every name is read, the array and all its names are released: exactly its footprint. */
  lemma AllReadFreesFootprint(mem: map<Ptr, Block>, p: Ptr)
    requires p in mem && AllNamesReadable(mem, p)
    ensures Freed(NamedArrayFrees(mem, p)) == Footprint(mem, p)
  {
    var names := Names(mem, p);
    assert names[..|names|] == names;
    FreedConcat(names, [p]);
    assert Freed(names) == set i | 0 <= i < |names| :: names[i] by {
      forall q | q in Freed(names)
        ensures q in set i | 0 <= i < |names| :: names[i]
      {
        var i :| 0 <= i < |names| && names[i] == q;
      }
    }
  }

  /** The public entry point a native one describes, named `name`. */
  function EntryPointOf(e: ScEntryPoint, name: string): (r: Spirv.EntryPoint)
  {
    Spirv.EntryPoint(name, e.executionModel, Spirv.WorkGroupSize(e.workGroupSizeX, e.workGroupSizeY, e.workGroupSizeZ))
  }

  /** What `get_entry_points` returns for the array at `p`: every entry point, or `Unhandled` when a name is unreadable. */
  ghost function EntryPointsValue(mem: map<Ptr, Block>, p: Ptr): Result<seq<Spirv.EntryPoint>>
    requires p in mem && mem[p].EntryPoints?
  {
    var es := mem[p].entryPoints;
    if !AllNamesReadable(mem, p) then Err(Unhandled)
    else Ok(seq(|es|, i requires 0 <= i < |es| => EntryPointOf(es[i], TextOrEmpty(mem, es[i].name))))
  }

  /** `log` is `log0` followed by frees of exactly `ptrs`, in order. */
  ghost predicate ThenFreed(log0: seq<Call>, log: seq<Call>, ptrs: seq<Ptr>)
  {
    |log| >= |log0| && log[..|log0|] == log0 && FreesInOrder(log[|log0|..], ptrs)
  }

  /** One more free extends a run of frees. */
  lemma ThenFreedStep(log0: seq<Call>, log1: seq<Call>, ptrs: seq<Ptr>, c: Call)
    requires ThenFreed(log0, log1, ptrs) && c.cmd.FreePointer?
    ensures ThenFreed(log0, log1 + [c], ptrs + [c.cmd.ptr])
  {
    assert (log1 + [c])[|log0|..] == log1[|log0|..] + [c];
  }

  /** Releasing one more pointer. */
  lemma FreedStep(heap0: map<Ptr, Block>, ptrs: seq<Ptr>, q: Ptr)
    ensures (heap0 - Freed(ptrs)) - {q} == heap0 - Freed(ptrs + [q])
  {
    FreedConcat(ptrs, [q]);
    assert Freed([q]) == {q};
  }

  /** A prefix of an extension of `log1` that is no longer than `log1` is a prefix of `log1`. */
  lemma PrefixOfPrefix(log0: seq<Call>, log1: seq<Call>, log: seq<Call>)
    requires |log0| <= |log1| <= |log| && log1[..|log0|] == log0 && log[..|log1|] == log1
    ensures log[..|log0|] == log0
  {
    assert log[..|log0|] == log[..|log1|][..|log0|];
  }

  /** Entry points assembled from their names as read. */
  lemma EntryPointsFromTexts(mem: map<Ptr, Block>, p: Ptr, texts: seq<string>)
    requires p in mem && mem[p].EntryPoints? && AllNamesReadable(mem, p)
    requires |texts| == |Names(mem, p)|
    requires forall j :: 0 <= j < |texts| ==> Text(mem, Names(mem, p)[j]) == Some(texts[j])
    ensures var es := mem[p].entryPoints;
      EntryPointsValue(mem, p) == Ok(seq(|es|, i requires 0 <= i < |es| => EntryPointOf(es[i], texts[i])))
  {
    var es := mem[p].entryPoints;
    var read := seq(|es|, i requires 0 <= i < |es| => EntryPointOf(es[i], TextOrEmpty(mem, es[i].name)));
    var built := seq(|es|, i requires 0 <= i < |es| => EntryPointOf(es[i], texts[i]));
    assert EntryPointsValue(mem, p) == Ok(read);
    forall i | 0 <= i < |es|
      ensures read[i] == built[i]
    {
      assert Names(mem, p)[i] == es[i].name;
    }
    assert read == built;
  }

  /** While the names before `i` have been released, name `i` and the array itself are still live, unchanged. */
  lemma StillLive(heap0: map<Ptr, Block>, mem: map<Ptr, Block>, p: Ptr, i: nat)
    requires p in mem && NamedArrayAt(mem, p, Length(mem[p])) && AgreesOn(heap0, mem, Footprint(mem, p))
    requires i <= |Names(mem, p)|
    ensures p in heap0 - Freed(Names(mem, p)[..i]) && heap0[p] == mem[p]
    ensures i < |Names(mem, p)| ==>
      && var q := Names(mem, p)[i];
      && q in heap0 - Freed(Names(mem, p)[..i]) && heap0[q] == mem[q] && mem[q].CStr?
  {
    var names := Names(mem, p);
    assert p in Footprint(mem, p);
    assert p !in Freed(names[..i]);
    if i < |names| {
      assert names[i] in Footprint(mem, p);
      assert names[i] !in Freed(names[..i]);
    }
  }

  /** A one-buffer query: the command was issued and, on success, its buffer was released; the heap is as before. */
  ghost predicate BufferQuery(log0: seq<Call>, log: seq<Call>, heap0: map<Ptr, Block>, heap: map<Ptr, Block>, cmd: Command)
  {
    && Issued(log0, log, cmd)
    && heap == heap0
    && var c := log[|log0|];
    && (c.status.Failure? ==> |log| == |log0| + 1)
    && (c.status.Success? ==> c.reply.Array? && FreesInOrder(Rest(log0, log), [c.reply.ptr]))
  }

  /** The buffer a successful one-buffer query answered with. */
  ghost function AnsweredBlock(c: Call): Option<Block>
  {
    if c.status.Success? && c.reply.Array? && c.reply.ptr in c.memory then Some(c.memory[c.reply.ptr]) else None
  }

  function BufferRangeOf(b: ScBufferRange): Spirv.BufferRange
  {
    Spirv.BufferRange(b.index, b.offset, b.range)
  }

  function SpecializationConstantOf(c: ScSpecializationConstant): Spirv.SpecializationConstant
  {
    Spirv.SpecializationConstant(c.id, c.constantId)
  }

  /** What `get_active_buffer_ranges` returns: every native range, in order, fields copied. */
  ghost function BufferRangesValue(c: Call): Result<seq<Spirv.BufferRange>>
  {
    if c.status.Failure? then Err(c.status.error)
    else match AnsweredBlock(c)
      case Some(BufferRanges(rs)) => Ok(seq(|rs|, i requires 0 <= i < |rs| => BufferRangeOf(rs[i])))
      case _ => Err(Unhandled)
  }

  /** What `get_specialization_constants` returns: every native constant, in order, fields copied. */
  ghost function SpecializationConstantsValue(c: Call): Result<seq<Spirv.SpecializationConstant>>
  {
    if c.status.Failure? then Err(c.status.error)
    else match AnsweredBlock(c)
      case Some(SpecConstants(cs)) => Ok(seq(|cs|, i requires 0 <= i < |cs| => SpecializationConstantOf(cs[i])))
      case _ => Err(Unhandled)
  }

  /** What `get_active_interface_variables` returns: the set of the answered ids. */
  ghost function InterfaceVariablesValue(c: Call): Result<set<u32>>
  {
    if c.status.Failure? then Err(c.status.error)
    else match AnsweredBlock(c)
      case Some(Words(ws)) => Ok(set i | 0 <= i < |ws| :: ws[i])
      case _ => Err(Unhandled)
  }

  /** What `get_work_group_size_specialization_constants` returns: the three answered constants as x, y, z. */
  ghost function WorkGroupSizeConstantsValue(c: Call): Result<Spirv.WorkGroupSizeSpecializationConstants>
  {
    if c.status.Failure? then Err(c.status.error)
    else match AnsweredBlock(c)
      case Some(SpecConstants(cs)) =>
        if |cs| == 3 then
          Ok(Spirv.WorkGroupSizeSpecializationConstants(
            SpecializationConstantOf(cs[0]), SpecializationConstantOf(cs[1]), SpecializationConstantOf(cs[2])))
        else Err(Unhandled)
      case _ => Err(Unhandled)
  }

  /** The public type the record at `p` describes; absent parts read as empty. */
  ghost function TypeValue(mem: map<Ptr, Block>, p: Ptr): Spirv.Type
    requires TypeRecordAt(mem, p)
  {
    var t := mem[p].ty;
    TypeFromRaw(
      t.type_, t.vecsize, t.columns,
      if t.memberTypesSize > 0 then mem[t.memberTypes].words else [],
      if t.arraySize > 0 then mem[t.arrayDims].words else [],
      if t.arraySize > 0 then mem[t.arraySizeLiteral].flags else [],
      t.image)
  }

  /** What `get_type` releases, in order: the member types and the dimensions when present, then the record. */
  function TypeFrees(t: ScType, p: Ptr): seq<Ptr>
  {
    (if t.memberTypesSize > 0 then [t.memberTypes] else [])
    + (if t.arraySize > 0 then [t.arrayDims] else [])
    + [p]
  }

  /** The dimensions and the literal flags of a type are read with the same count, so they have equal length. */
  lemma TypeArraysAgree(mem: map<Ptr, Block>, p: Ptr)
    requires TypeRecordAt(mem, p)
    ensures TypeValue(mem, p).HasArray() ==>
      |TypeValue(mem, p).arrayDims| == |TypeValue(mem, p).arraySizeLiteral| == mem[p].ty.arraySize
  {
  }

  /**
   * After the frees of `get_type`, the only allocation of the answer that is still
   * live is the literal-flags buffer, when the type has array dimensions.
   */
  lemma TypeFreesLeaveLiteral(heap0: map<Ptr, Block>, mem: map<Ptr, Block>, p: Ptr)
    requires TypeRecordAt(mem, p) && Extends(heap0, mem, {p} + TypeParts(mem[p].ty))
    ensures var t := mem[p].ty;
      (mem - Freed(TypeFrees(t, p))).Keys == heap0.Keys + (if t.arraySize > 0 then {t.arraySizeLiteral} else {})
  {
    var t := mem[p].ty;
    assert t.arraySize > 0 ==> t.arraySizeLiteral !in Freed(TypeFrees(t, p));
  }

  /** The native record `rename_interface_variable` builds for a resource. */
  function RawResource(r: Spirv.Resource): ScResourceIn
  {
    ScResourceIn(r.id, r.typeId, r.baseTypeId, CString(r.name))
  }

  /** Every resource name can be sent as a C string. */
  predicate AllEncodable(resources: seq<Spirv.Resource>)
  {
    forall i :: 0 <= i < |resources| ==> Encodable(resources[i].name)
  }

  /** Two runs of frees, one after the other. */
  lemma ThenFreedConcat(log0: seq<Call>, log1: seq<Call>, log2: seq<Call>, a: seq<Ptr>, b: seq<Ptr>)
    requires ThenFreed(log0, log1, a) && ThenFreed(log1, log2, b)
    ensures ThenFreed(log0, log2, a + b)
  {
    assert log2[..|log0|] == log2[..|log1|][..|log0|];
    assert log2[|log0|..] == log1[|log0|..] + log2[|log1|..];
  }

  /** Taking away two adjacent address ranges is taking away their union. */
  lemma MinusRanges(mem: map<Ptr, Block>, lo: nat, mid: nat, hi: nat)
    requires lo <= mid <= hi
    ensures (mem - Range(lo, mid)) - Range(mid, hi) == mem - Range(lo, hi)
  {
    assert Range(lo, mid) + Range(mid, hi) == Range(lo, hi);
  }

  function ResourceOf(raw: ScResource, name: string): Spirv.Resource
  {
    Spirv.Resource(raw.id, raw.typeId, raw.baseTypeId, name)
  }

  function BuiltInResourceOf(raw: ScBuiltInResource, name: string): Spirv.BuiltInResource
    requires raw.builtin != Spv.Max
  {
    Spirv.BuiltInResource(Spirv.BuiltInFromRaw(raw.builtin), raw.valueTypeId, ResourceOf(raw.resource, name))
  }

  /** `fill_resources`: every resource with its name, or `Unhandled` when a name is unreadable. */
  ghost function CategoryValue(mem: map<Ptr, Block>, a: ScArray): Result<seq<Spirv.Resource>>
    requires CategoryAt(mem, a, false)
  {
    var rs := mem[a.data].resources;
    if !AllNamesReadable(mem, a.data) then Err(Unhandled)
    else Ok(seq(|rs|, i requires 0 <= i < |rs| => ResourceOf(rs[i], TextOrEmpty(mem, rs[i].name))))
  }

  /** `fill_builtin_resources`: as `fill_resources`, with each built-in converted to the public vocabulary. */
  ghost function BuiltInCategoryValue(mem: map<Ptr, Block>, a: ScArray): Result<seq<Spirv.BuiltInResource>>
    requires CategoryAt(mem, a, true)
  {
    var bs := mem[a.data].builtins;
    if !AllNamesReadable(mem, a.data) then Err(Unhandled)
    else Ok(seq(|bs|, i requires 0 <= i < |bs| => BuiltInResourceOf(bs[i], TextOrEmpty(mem, bs[i].resource.name))))
  }

  /** The plain categories in order, stopping at the first that fails. */
  ghost function PlainValues(mem: map<Ptr, Block>, arrays: seq<ScArray>): (r: Result<seq<seq<Spirv.Resource>>>)
    requires forall k :: 0 <= k < |arrays| ==> CategoryAt(mem, arrays[k], false)
    ensures r.Ok? ==> |r.value| == |arrays|
    decreases |arrays|
  {
    if |arrays| == 0 then Ok([])
    else
      var first :- CategoryValue(mem, arrays[0]);
      var rest :- PlainValues(mem, arrays[1..]);
      Ok([first] + rest)
  }

  /** The fifteen categories of a reply, in declaration order, are laid out in `mem`. */
  ghost predicate AllCategoriesAt(mem: map<Ptr, Block>, arrays: seq<ScArray>)
  {
    |arrays| == 15 && forall k :: 0 <= k < 15 ==> CategoryAt(mem, arrays[k], k >= 13)
  }

  /** The public record from its thirteen plain categories and two built-in ones. */
  function ShaderResourcesOf(plain: seq<seq<Spirv.Resource>>, inputs: seq<Spirv.BuiltInResource>,
                             outputs: seq<Spirv.BuiltInResource>): Spirv.ShaderResources
    requires |plain| == 13
  {
    Spirv.ShaderResources(
      plain[0], plain[1], plain[2], plain[3], plain[4], plain[5], plain[6],
      plain[7], plain[8], plain[9], plain[10], plain[11], plain[12], inputs, outputs)
  }

  /**
   * What `get_shader_resources` returns: the fifteen categories filled in declaration
   * order, the first failing one giving the result.
   */
  ghost function ShaderResourcesValue(mem: map<Ptr, Block>, arrays: seq<ScArray>): Result<Spirv.ShaderResources>
    requires AllCategoriesAt(mem, arrays)
  {
    var plain :- PlainValues(mem, arrays[..13]);
    var builtins :- BuiltInsValue(mem, arrays);
    Ok(ShaderResourcesOf(plain, builtins.0, builtins.1))
  }

  /** The built-in inputs, then the built-in outputs, the first failing one giving the result. */
  ghost function BuiltInsValue(mem: map<Ptr, Block>, arrays: seq<ScArray>)
    : Result<(seq<Spirv.BuiltInResource>, seq<Spirv.BuiltInResource>)>
    requires AllCategoriesAt(mem, arrays)
  {
    var inputs :- BuiltInCategoryValue(mem, arrays[13]);
    var outputs :- BuiltInCategoryValue(mem, arrays[14]);
    Ok((inputs, outputs))
  }

  /** What `get_shader_resources` releases, in order: category by category, up to the first that fails. */
  ghost function FillFrees(mem: map<Ptr, Block>, arrays: seq<ScArray>): seq<Ptr>
    requires forall k :: 0 <= k < |arrays| ==> arrays[k].data in mem
    decreases |arrays|
  {
    if |arrays| == 0 then []
    else
      NamedArrayFrees(mem, arrays[0].data)
      + (if AllNamesReadable(mem, arrays[0].data) then FillFrees(mem, arrays[1..]) else [])
  }

  /** One category's step of `FillFrees`. */
  lemma FillFreesStep(mem: map<Ptr, Block>, arrays: seq<ScArray>, k: nat)
    requires k < |arrays| && forall j :: 0 <= j < |arrays| ==> arrays[j].data in mem
    ensures FillFrees(mem, arrays[k..])
      == NamedArrayFrees(mem, arrays[k].data)
         + (if AllNamesReadable(mem, arrays[k].data) then FillFrees(mem, arrays[k + 1..]) else [])
  {
    assert arrays[k..][1..] == arrays[k + 1..];
  }

  /** The frees of the two built-in categories, the second one read only when the first succeeds. */
  lemma FillFreesBuiltIns(mem: map<Ptr, Block>, all: seq<ScArray>)
    requires |all| == 15 && forall j :: 0 <= j < |all| ==> all[j].data in mem
    ensures FillFrees(mem, all[13..])
      == NamedArrayFrees(mem, all[13].data)
         + (if AllNamesReadable(mem, all[13].data) then NamedArrayFrees(mem, all[14].data) else [])
  {
    FillFreesStep(mem, all, 13);
    FillFreesStep(mem, all, 14);
    assert all[15..] == [];
    assert NamedArrayFrees(mem, all[14].data) + [] == NamedArrayFrees(mem, all[14].data);
  }

  /** One category's step of `PlainValues`. */
  lemma PlainValuesStep(mem: map<Ptr, Block>, arrays: seq<ScArray>, k: nat)
    requires k < |arrays| && forall j :: 0 <= j < |arrays| ==> CategoryAt(mem, arrays[j], false)
    ensures PlainValues(mem, arrays[k..])
      == match CategoryValue(mem, arrays[k])
         case Err(e) => Err(e)
         case Ok(v) => Prepend([v], PlainValues(mem, arrays[k + 1..]))
  {
    assert arrays[k..][1..] == arrays[k + 1..];
  }

  /** Records paired with the names read for them. */
  function Category(rs: seq<ScResource>, texts: seq<string>): seq<Spirv.Resource>
    requires |rs| <= |texts|
  {
    seq(|rs|, i requires 0 <= i < |rs| => ResourceOf(rs[i], texts[i]))
  }

  /** Built-in records paired with the names read for them. */
  function BuiltInCategory(bs: seq<ScBuiltInResource>, texts: seq<string>): seq<Spirv.BuiltInResource>
    requires |bs| <= |texts| && forall i :: 0 <= i < |bs| ==> bs[i].builtin != Spv.Max
  {
    seq(|bs|, i requires 0 <= i < |bs| => BuiltInResourceOf(bs[i], texts[i]))
  }

  /** A plain category assembled from its names as read. */
  lemma CategoryFromTexts(mem: map<Ptr, Block>, a: ScArray, texts: seq<string>)
    requires CategoryAt(mem, a, false) && AllNamesReadable(mem, a.data)
    requires |texts| == |Names(mem, a.data)|
    requires forall j :: 0 <= j < |texts| ==> Text(mem, Names(mem, a.data)[j]) == Some(texts[j])
    ensures CategoryValue(mem, a) == Ok(Category(mem[a.data].resources, texts))
  {
    var rs := mem[a.data].resources;
    var read := seq(|rs|, i requires 0 <= i < |rs| => ResourceOf(rs[i], TextOrEmpty(mem, rs[i].name)));
    var built := Category(rs, texts);
    assert CategoryValue(mem, a) == Ok(read);
    forall i | 0 <= i < |rs|
      ensures read[i] == built[i]
    {
      assert Names(mem, a.data)[i] == rs[i].name;
    }
    assert read == built;
  }

  /** A built-in category assembled from its names as read. */
  lemma BuiltInCategoryFromTexts(mem: map<Ptr, Block>, a: ScArray, texts: seq<string>)
    requires CategoryAt(mem, a, true) && AllNamesReadable(mem, a.data)
    requires |texts| == |Names(mem, a.data)|
    requires forall j :: 0 <= j < |texts| ==> Text(mem, Names(mem, a.data)[j]) == Some(texts[j])
    ensures BuiltInCategoryValue(mem, a) == Ok(BuiltInCategory(mem[a.data].builtins, texts))
  {
    var bs := mem[a.data].builtins;
    var read := seq(|bs|, i requires 0 <= i < |bs| => BuiltInResourceOf(bs[i], TextOrEmpty(mem, bs[i].resource.name)));
    var built := BuiltInCategory(bs, texts);
    assert BuiltInCategoryValue(mem, a) == Ok(read);
    forall i | 0 <= i < |bs|
      ensures read[i] == built[i]
    {
      assert Names(mem, a.data)[i] == bs[i].resource.name;
    }
    assert read == built;
  }

  /** `acc` followed by the values of `r`, or the error of `r`. */
  function Prepend<T>(acc: seq<T>, r: Result<seq<T>>): Result<seq<T>>
  {
    match r
    case Ok(v) => Ok(acc + v)
    case Err(e) => Err(e)
  }

  lemma PrependTwice<T>(acc: seq<T>, more: seq<T>, r: Result<seq<T>>)
    ensures Prepend(acc, Prepend(more, r)) == Prepend(acc + more, r)
  {
    if r.Ok? {
      assert acc + (more + r.value) == (acc + more) + r.value;
    }
  }

  /** What one step of the plain-category loop adds to its frees. */
  lemma PlainFreesAdvance(mem: map<Ptr, Block>, arrays: seq<ScArray>, k: nat, done: seq<Ptr>)
    requires k < |arrays| && forall j :: 0 <= j < |arrays| ==> arrays[j].data in mem
    requires FillFrees(mem, arrays) == done + FillFrees(mem, arrays[k..])
    ensures var rest := if AllNamesReadable(mem, arrays[k].data) then FillFrees(mem, arrays[k + 1..]) else [];
      FillFrees(mem, arrays) == (done + NamedArrayFrees(mem, arrays[k].data)) + rest
  {
    FillFreesStep(mem, arrays, k);
  }

  /** What one step of the plain-category loop adds to its result. */
  lemma PlainValuesAdvance(mem: map<Ptr, Block>, plain: seq<ScArray>, k: nat, values: seq<seq<Spirv.Resource>>)
    requires k < |plain| && forall j :: 0 <= j < |plain| ==> CategoryAt(mem, plain[j], false)
    requires PlainValues(mem, plain) == Prepend(values, PlainValues(mem, plain[k..]))
    ensures CategoryValue(mem, plain[k]).Err? ==> PlainValues(mem, plain) == Err(Unhandled)
    ensures CategoryValue(mem, plain[k]).Ok? ==>
      PlainValues(mem, plain) == Prepend(values + [CategoryValue(mem, plain[k]).value], PlainValues(mem, plain[k + 1..]))
  {
    PlainValuesStep(mem, plain, k);
    var cv := CategoryValue(mem, plain[k]);
    if cv.Ok? {
      PrependTwice(values, [cv.value], PlainValues(mem, plain[k + 1..]));
    }
  }

  /** `heap` holds the same blocks as `mem` at every address of `s`. */
  ghost predicate AgreesOn(heap: map<Ptr, Block>, mem: map<Ptr, Block>, s: set<Ptr>)
  {
    forall q :: q in s ==> q in mem && q in heap && heap[q] == mem[q]
  }

  /**
   * `Compiler<TTargetData>`: one native instance, the target's own data, and whether
   * `compile` has been called.
   */
  class Compiler<D> {
    const engine: Engine
    const targetData: D
    var hasBeenCompiled: bool

    /** The native instance is live. */
    ghost predicate Valid()
      reads this, engine
    {
      engine.Valid() && !engine.deleted
    }

    constructor (engine: Engine, targetData: D)
      requires engine.Valid() && !engine.deleted
      ensures Valid() && this.engine == engine && this.targetData == targetData && !hasBeenCompiled
    {
      this.engine := engine;
      this.targetData := targetData;
      hasBeenCompiled := false;
    }

    /** `read_string_from_ptr(p)?` followed by `free_pointer(p)`: an unreadable string is not released. */
    method ReadAndFree(p: Ptr) returns (r: Result<string>)
      requires Valid() && p in engine.heap && engine.heap[p].CStr?
      modifies engine
      ensures Valid()
      ensures r == (if old(engine.heap[p].text).Some? then Ok(old(engine.heap[p].text).value) else Err(Unhandled))
      ensures r.Err? ==> Untouched(old(engine.log), engine.log, old(engine.heap), engine.heap)
      ensures r.Ok? ==> engine.heap == old(engine.heap) - {p}
      ensures r.Ok? ==> engine.log == old(engine.log) + [Call(FreePointer(p), Success, NoReply, engine.heap)]
    {
      var text := engine.heap[p].text;
      if text.None? {
        return Err(Unhandled);
      }
      engine.Free(p);
      r := Ok(text.value);
    }

    /** The shape shared by `get_name`, `get_member_name` and the cleansed-name query. */
    method QueryString(cmd: Command) returns (r: Result<string>)
      requires Valid() && cmd.RepliesString()
      modifies engine
      ensures Valid()
      ensures StringQuery(old(engine.log), engine.log, old(engine.heap), engine.heap, cmd, r)
    {
      ghost var log0 := engine.log;
      var st, p := engine.InvokeString(cmd);
      ghost var c := engine.log[|log0|];
      ghost var log1 := engine.log;
      if st.Failure? {
        assert engine.log[|log0| + 1..] == [];
        return Err(st.error);
      }
      r := ReadAndFree(p);
      assert engine.log[..|log1|] == log1;
    }

    /** `get_decoration`. */
    method GetDecoration(id: u32, decoration: Spv.Decoration) returns (r: Result<u32>)
      requires Valid()
      modifies engine
      ensures Valid()
      ensures WordQuery(old(engine.log), engine.log, old(engine.heap), engine.heap, Command.GetDecoration(id, decoration), r)
    {
      var st, w := engine.InvokeWord(Command.GetDecoration(id, decoration));
      r := if st.Failure? then Err(st.error) else Ok(w);
    }

    /** `get_name`. */
    method GetName(id: u32) returns (r: Result<string>)
      requires Valid()
      modifies engine
      ensures Valid()
      ensures StringQuery(old(engine.log), engine.log, old(engine.heap), engine.heap, Command.GetName(id), r)
    {
      r := QueryString(Command.GetName(id));
    }

    /** `set_name`: a name holding NUL is refused before any native call. */
    method SetName(id: u32, name: string) returns (r: Outcome)
      requires Valid()
      modifies engine
      ensures Valid()
      ensures Encodable(name) ==>
        StatusQuery(old(engine.log), engine.log, old(engine.heap), engine.heap, Command.SetName(id, CString(name)), r)
      ensures !Encodable(name) ==>
        r == Fail(Unhandled) && Untouched(old(engine.log), engine.log, old(engine.heap), engine.heap)
    {
      match ToCString(name) {
        case None =>
          r := Fail(Unhandled);
        case Some(c) =>
          var st := engine.Invoke(Command.SetName(id, c));
          r := OutcomeOf(st);
      }
    }

    /** `set_member_name`: a name holding NUL is refused before any native call. */
    method SetMemberName(id: u32, index: u32, name: string) returns (r: Outcome)
      requires Valid()
      modifies engine
      ensures Valid()
      ensures Encodable(name) ==>
        StatusQuery(old(engine.log), engine.log, old(engine.heap), engine.heap, Command.SetMemberName(id, index, CString(name)), r)
      ensures !Encodable(name) ==>
        r == Fail(Unhandled) && Untouched(old(engine.log), engine.log, old(engine.heap), engine.heap)
    {
      match ToCString(name) {
        case None =>
          r := Fail(Unhandled);
        case Some(c) =>
          var st := engine.Invoke(Command.SetMemberName(id, index, c));
          r := OutcomeOf(st);
      }
    }

    /** `unset_decoration`. */
    method UnsetDecoration(id: u32, decoration: Spv.Decoration) returns (r: Outcome)
      requires Valid()
      modifies engine
      ensures Valid()
      ensures StatusQuery(old(engine.log), engine.log, old(engine.heap), engine.heap, Command.UnsetDecoration(id, decoration), r)
    {
      var st := engine.Invoke(Command.UnsetDecoration(id, decoration));
      r := OutcomeOf(st);
    }

    /** `set_decoration`. */
    method SetDecoration(id: u32, decoration: Spv.Decoration, argument: u32) returns (r: Outcome)
      requires Valid()
      modifies engine
      ensures Valid()
      ensures StatusQuery(old(engine.log), engine.log, old(engine.heap), engine.heap, Command.SetDecoration(id, decoration, argument), r)
    {
      var st := engine.Invoke(Command.SetDecoration(id, decoration, argument));
      r := OutcomeOf(st);
    }

    /** `get_cleansed_entry_point_name`: a name holding NUL is refused before any native call. */
    method GetCleansedEntryPointName(name: string, model: Spv.ExecutionModel) returns (r: Result<string>)
      requires Valid()
      modifies engine
      ensures Valid()
      ensures Encodable(name) ==> StringQuery(old(engine.log), engine.log, old(engine.heap), engine.heap,
                                               Command.GetCleansedEntryPointName(CString(name), model), r)
      ensures !Encodable(name) ==>
        r == Err(Unhandled) && Untouched(old(engine.log), engine.log, old(engine.heap), engine.heap)
    {
      match ToCString(name) {
        case None =>
          r := Err(Unhandled);
        case Some(c) =>
          r := QueryString(Command.GetCleansedEntryPointName(c, model));
      }
    }

    /** `set_scalar_constant`: the 64-bit value travels as its high and low 32-bit halves. */
    method SetScalarConstant(id: u32, value: u64) returns (r: Outcome)
      requires Valid()
      modifies engine
      ensures Valid()
      ensures StatusQuery(old(engine.log), engine.log, old(engine.heap), engine.heap,
                          Command.SetScalarConstant(id, SplitScalar(value).0, SplitScalar(value).1), r)
    {
      var (high, low) := SplitScalar(value);
      var st := engine.Invoke(Command.SetScalarConstant(id, high, low));
      r := OutcomeOf(st);
    }

    /** `get_member_name`. */
    method GetMemberName(id: u32, index: u32) returns (r: Result<string>)
      requires Valid()
      modifies engine
      ensures Valid()
      ensures StringQuery(old(engine.log), engine.log, old(engine.heap), engine.heap, Command.GetMemberName(id, index), r)
    {
      r := QueryString(Command.GetMemberName(id, index));
    }

    /** `get_member_decoration`. */
    method GetMemberDecoration(id: u32, index: u32, decoration: Spv.Decoration) returns (r: Result<u32>)
      requires Valid()
      modifies engine
      ensures Valid()
      ensures WordQuery(old(engine.log), engine.log, old(engine.heap), engine.heap,
                        Command.GetMemberDecoration(id, index, decoration), r)
    {
      var st, w := engine.InvokeWord(Command.GetMemberDecoration(id, index, decoration));
      r := if st.Failure? then Err(st.error) else Ok(w);
    }

    /** `set_member_decoration`. */
    method SetMemberDecoration(id: u32, index: u32, decoration: Spv.Decoration, argument: u32) returns (r: Outcome)
      requires Valid()
      modifies engine
      ensures Valid()
      ensures StatusQuery(old(engine.log), engine.log, old(engine.heap), engine.heap,
                          Command.SetMemberDecoration(id, index, decoration, argument), r)
    {
      var st := engine.Invoke(Command.SetMemberDecoration(id, index, decoration, argument));
      r := OutcomeOf(st);
    }

    /** `get_declared_struct_size`. */
    method GetDeclaredStructSize(id: u32) returns (r: Result<u32>)
      requires Valid()
      modifies engine
      ensures Valid()
      ensures WordQuery(old(engine.log), engine.log, old(engine.heap), engine.heap, Command.GetDeclaredStructSize(id), r)
    {
      var st, w := engine.InvokeWord(Command.GetDeclaredStructSize(id));
      r := if st.Failure? then Err(st.error) else Ok(w);
    }

    /** `get_declared_struct_member_size`. */
    method GetDeclaredStructMemberSize(id: u32, index: u32) returns (r: Result<u32>)
      requires Valid()
      modifies engine
      ensures Valid()
      ensures WordQuery(old(engine.log), engine.log, old(engine.heap), engine.heap,
                        Command.GetDeclaredStructMemberSize(id, index), r)
    {
      var st, w := engine.InvokeWord(Command.GetDeclaredStructMemberSize(id, index));
      r := if st.Failure? then Err(st.error) else Ok(w);
    }

    /**
     * The per-element loop of the named-array queries: read and release each name in
     * order, stopping at the first one that is not valid UTF-8, then release the
     * array itself.
     */
    method ReadNamesAndRelease(p: Ptr, ghost mem: map<Ptr, Block>) returns (texts: seq<string>, ok: bool)
      requires Valid() && p in mem && NamedArrayAt(mem, p, Length(mem[p])) && AgreesOn(engine.heap, mem, Footprint(mem, p))
      modifies engine
      ensures Valid()
      ensures ok <==> AllNamesReadable(mem, p)
      ensures |texts| == ReadableCount(mem, Names(mem, p))
      ensures forall j :: 0 <= j < |texts| ==> Text(mem, Names(mem, p)[j]) == Some(texts[j])
      ensures engine.heap == old(engine.heap) - Freed(NamedArrayFrees(mem, p))
      ensures ThenFreed(old(engine.log), engine.log, NamedArrayFrees(mem, p))
    {
      ghost var names := Names(mem, p);
      ghost var log0 := engine.log;
      ghost var heap0 := engine.heap;
      texts, ok := ReadNames(p, mem);
      ghost var i := |texts|;
      StillLive(heap0, mem, p, i);
      ghost var logi := engine.log;
      engine.Free(p);
      ThenFreedStep(log0, logi, names[..i], engine.log[|logi|]);
      FreedStep(heap0, names[..i], p);
    }

    /** The name strings of the array at `p`, read and released in order up to the first one that is not valid UTF-8. */
    method ReadNames(p: Ptr, ghost mem: map<Ptr, Block>) returns (texts: seq<string>, ok: bool)
      requires Valid() && p in mem && NamedArrayAt(mem, p, Length(mem[p])) && AgreesOn(engine.heap, mem, Footprint(mem, p))
      modifies engine
      ensures Valid()
      ensures ok <==> AllNamesReadable(mem, p)
      ensures |texts| == ReadableCount(mem, Names(mem, p))
      ensures forall j :: 0 <= j < |texts| ==> Text(mem, Names(mem, p)[j]) == Some(texts[j])
      ensures engine.heap == old(engine.heap) - Freed(Names(mem, p)[..|texts|])
      ensures ThenFreed(old(engine.log), engine.log, Names(mem, p)[..|texts|])
    {
      ghost var names := Names(mem, p);
      ghost var log0 := engine.log;
      ghost var heap0 := engine.heap;
      var n := Length(engine.heap[p]);
      var ptrs := NamePtrs(engine.heap[p]);
      texts := [];
      ok := true;
      var i := 0;
      assert names[..0] == [];
      assert engine.log[|log0|..] == [];
      while i < n
        invariant Valid() && ptrs == names && n == |names| && 0 <= i <= n
        invariant i <= ReadableCount(mem, names) && |texts| == i
        invariant forall j :: 0 <= j < i ==> Text(mem, names[j]) == Some(texts[j])
        invariant engine.heap == heap0 - Freed(names[..i])
        invariant ThenFreed(log0, engine.log, names[..i])
      {
        var r := ReadName(p, mem, heap0, log0, i);
        if r.Err? {
          ok := false;
          break;
        }
        texts := texts + [r.value];
        i := i + 1;
      }
    }

    /** The `i`-th name of the array at `p`, read and released when it is valid UTF-8. */
    method ReadName(p: Ptr, ghost mem: map<Ptr, Block>, ghost heap0: map<Ptr, Block>, ghost log0: seq<Call>, i: nat)
      returns (r: Result<string>)
      requires Valid() && p in mem && NamedArrayAt(mem, p, Length(mem[p])) && AgreesOn(heap0, mem, Footprint(mem, p))
      requires i < |Names(mem, p)| && engine.heap == heap0 - Freed(Names(mem, p)[..i])
      requires ThenFreed(log0, engine.log, Names(mem, p)[..i])
      modifies engine
      ensures Valid()
      ensures r.Ok? <==> Text(mem, Names(mem, p)[i]).Some?
      ensures r.Ok? ==> Text(mem, Names(mem, p)[i]) == Some(r.value)
      ensures r.Ok? ==> engine.heap == heap0 - Freed(Names(mem, p)[..i + 1])
      ensures r.Ok? ==> ThenFreed(log0, engine.log, Names(mem, p)[..i + 1])
      ensures r.Err? ==> Untouched(old(engine.log), engine.log, old(engine.heap), engine.heap)
    {
      ghost var names := Names(mem, p);
      StillLive(heap0, mem, p, i);
      ghost var logi := engine.log;
      r := ReadAndFree(NamePtrs(engine.heap[p])[i]);
      if r.Ok? {
        ThenFreedStep(log0, logi, names[..i], engine.log[|logi|]);
        FreedStep(heap0, names[..i], names[i]);
        assert names[..i + 1] == names[..i] + [names[i]];
      }
    }

    /** `get_entry_points`. */
    method GetEntryPoints() returns (r: Result<seq<Spirv.EntryPoint>>)
      requires Valid()
      modifies engine
      ensures Valid()
      ensures Issued(old(engine.log), engine.log, Command.GetEntryPoints)
      ensures var c := engine.log[|old(engine.log)|];
        if c.status.Failure? then
          r == Err(c.status.error) && Rest(old(engine.log), engine.log) == [] && engine.heap == old(engine.heap)
        else
          && c.reply.Array? && c.reply.ptr in c.memory && c.memory[c.reply.ptr].EntryPoints?
          && r == EntryPointsValue(c.memory, c.reply.ptr)
          && FreesInOrder(Rest(old(engine.log), engine.log), NamedArrayFrees(c.memory, c.reply.ptr))
          && engine.heap == c.memory - Freed(NamedArrayFrees(c.memory, c.reply.ptr))
          && (r.Ok? ==> engine.heap == old(engine.heap))
    {
      ghost var log0 := engine.log;
      ghost var heap0 := engine.heap;
      var st, p, n := engine.InvokeEntryPoints();
      ghost var mem := engine.heap;
      ghost var log1 := engine.log;
      if st.Failure? {
        assert engine.log[|log0| + 1..] == [];
        return Err(st.error);
      }
      var es := engine.heap[p].entryPoints;
      var texts, ok := ReadNamesAndRelease(p, mem);
      assert engine.log[|log0| + 1..] == engine.log[|log1|..];
      PrefixOfPrefix(log0, log1, engine.log);
      assert engine.log[|log0|] == log1[|log0|] == Call(Command.GetEntryPoints, st, Array(p, n), mem);
      if !ok {
        return Err(Unhandled);
      }
      r := Ok(seq(|es|, i requires 0 <= i < |es| => EntryPointOf(es[i], texts[i])));
      EntryPointsFromTexts(mem, p, texts);
      AllReadFreesFootprint(mem, p);
      ReleaseAll(heap0, mem, Footprint(mem, p));
    }

    /** `get_active_buffer_ranges`. */
    method GetActiveBufferRanges(id: u32) returns (r: Result<seq<Spirv.BufferRange>>)
      requires Valid()
      modifies engine
      ensures Valid()
      ensures BufferQuery(old(engine.log), engine.log, old(engine.heap), engine.heap, Command.GetActiveBufferRanges(id))
      ensures r == BufferRangesValue(engine.log[|old(engine.log)|])
    {
      ghost var heap0 := engine.heap;
      var st, p, n := engine.InvokeArray(Command.GetActiveBufferRanges(id));
      ghost var mem := engine.heap;
      if st.Failure? {
        return Err(st.error);
      }
      var rs := engine.heap[p].ranges;
      r := Ok(seq(|rs|, i requires 0 <= i < |rs| => BufferRangeOf(rs[i])));
      engine.Free(p);
      ReleaseAll(heap0, mem, {p});
    }

    /** `get_specialization_constants`. */
    method GetSpecializationConstants() returns (r: Result<seq<Spirv.SpecializationConstant>>)
      requires Valid()
      modifies engine
      ensures Valid()
      ensures BufferQuery(old(engine.log), engine.log, old(engine.heap), engine.heap, Command.GetSpecializationConstants)
      ensures r == SpecializationConstantsValue(engine.log[|old(engine.log)|])
    {
      ghost var heap0 := engine.heap;
      var st, p, n := engine.InvokeArray(Command.GetSpecializationConstants);
      ghost var mem := engine.heap;
      if st.Failure? {
        return Err(st.error);
      }
      var cs := engine.heap[p].constants;
      r := Ok(seq(|cs|, i requires 0 <= i < |cs| => SpecializationConstantOf(cs[i])));
      engine.Free(p);
      ReleaseAll(heap0, mem, {p});
    }

    /** `get_active_interface_variables`: the answered ids with duplicates collapsed. */
    method GetActiveInterfaceVariables() returns (r: Result<set<u32>>)
      requires Valid()
      modifies engine
      ensures Valid()
      ensures BufferQuery(old(engine.log), engine.log, old(engine.heap), engine.heap, Command.GetActiveInterfaceVariables)
      ensures r == InterfaceVariablesValue(engine.log[|old(engine.log)|])
    {
      ghost var heap0 := engine.heap;
      var st, p, n := engine.InvokeArray(Command.GetActiveInterfaceVariables);
      ghost var mem := engine.heap;
      if st.Failure? {
        return Err(st.error);
      }
      var ws := engine.heap[p].words;
      var ids: set<u32> := {};
      var i := 0;
      while i < |ws|
        invariant 0 <= i <= |ws|
        invariant ids == set j | 0 <= j < i :: ws[j]
      {
        ids := ids + {ws[i]};
        i := i + 1;
      }
      r := Ok(ids);
      engine.Free(p);
      ReleaseAll(heap0, mem, {p});
    }

    /** `get_work_group_size_specialization_constants`: the three answered constants, then the buffer is released. */
    method GetWorkGroupSizeSpecializationConstants() returns (r: Result<Spirv.WorkGroupSizeSpecializationConstants>)
      requires Valid()
      modifies engine
      ensures Valid()
      ensures BufferQuery(old(engine.log), engine.log, old(engine.heap), engine.heap,
                          Command.GetWorkGroupSizeSpecializationConstants)
      ensures r == WorkGroupSizeConstantsValue(engine.log[|old(engine.log)|])
    {
      ghost var heap0 := engine.heap;
      var st, p, n := engine.InvokeArray(Command.GetWorkGroupSizeSpecializationConstants);
      ghost var mem := engine.heap;
      if st.Failure? {
        return Err(st.error);
      }
      var cs := engine.heap[p].constants;
      r := Ok(Spirv.WorkGroupSizeSpecializationConstants(
        SpecializationConstantOf(cs[0]), SpecializationConstantOf(cs[1]), SpecializationConstantOf(cs[2])));
      engine.Free(p);
      ReleaseAll(heap0, mem, {p});
    }

    /** The frees of `get_type`, in order, on a heap that still holds the whole answer. */
    method ReleaseType(p: Ptr, ghost mem: map<Ptr, Block>)
      requires Valid() && TypeRecordAt(mem, p) && engine.heap == mem
      modifies engine
      ensures Valid()
      ensures ThenFreed(old(engine.log), engine.log, TypeFrees(mem[p].ty, p))
      ensures engine.heap == mem - Freed(TypeFrees(mem[p].ty, p))
    {
      ghost var log1 := engine.log;
      var t := engine.heap[p].ty;
      ghost var freed: seq<Ptr> := [];
      assert engine.log[|log1|..] == [];
      if t.memberTypesSize > 0 {
        freed := FreeNext(t.memberTypes, mem, log1, freed);
      }
      if t.arraySize > 0 {
        freed := FreeNext(t.arrayDims, mem, log1, freed);
      }
      freed := FreeNext(p, mem, log1, freed);
      assert freed == TypeFrees(t, p);
    }

    /** Releases `q`, one more pointer after the run `freed` since `log1`. */
    method FreeNext(q: Ptr, ghost mem: map<Ptr, Block>, ghost log1: seq<Call>, ghost freed: seq<Ptr>)
      returns (ghost freed': seq<Ptr>)
      requires Valid() && ThenFreed(log1, engine.log, freed) && engine.heap == mem - Freed(freed)
      requires q in engine.heap
      modifies engine
      ensures Valid() && freed' == freed + [q]
      ensures ThenFreed(log1, engine.log, freed') && engine.heap == mem - Freed(freed')
    {
      ghost var logi := engine.log;
      engine.Free(q);
      ThenFreedStep(log1, logi, freed, engine.log[|logi|]);
      FreedStep(mem, freed, q);
      freed' := freed + [q];
    }

    /** Builds the type from the record at `p` and its parts. */
    method ReadType(p: Ptr) returns (result: Spirv.Type)
      requires Valid() && TypeRecordAt(engine.heap, p)
      ensures result == TypeValue(engine.heap, p)
    {
      var t := engine.heap[p].ty;
      var members := if t.memberTypesSize > 0 then engine.heap[t.memberTypes].words else [];
      var dims := if t.arraySize > 0 then engine.heap[t.arrayDims].words else [];
      var literal := if t.arraySize > 0 then engine.heap[t.arraySizeLiteral].flags else [];
      result := TypeFromRaw(t.type_, t.vecsize, t.columns, members, dims, literal, t.image);
    }

    /**
     * `get_type`: builds the type, then releases the member types and the dimensions
     * when present, then the record. The literal flags are never released.
     */
    method GetType(id: u32) returns (r: Result<Spirv.Type>)
      requires Valid()
      modifies engine
      ensures Valid()
      ensures Issued(old(engine.log), engine.log, Command.GetType(id))
      ensures var c := engine.log[|old(engine.log)|];
        if c.status.Failure? then
          r == Err(c.status.error) && |engine.log| == |old(engine.log)| + 1 && engine.heap == old(engine.heap)
        else
          && c.reply.Pointer? && TypeRecordAt(c.memory, c.reply.ptr)
          && r == Ok(TypeValue(c.memory, c.reply.ptr))
          && ThenFreed(engine.log[..|old(engine.log)| + 1], engine.log, TypeFrees(c.memory[c.reply.ptr].ty, c.reply.ptr))
          && engine.heap == c.memory - Freed(TypeFrees(c.memory[c.reply.ptr].ty, c.reply.ptr))
          && var t := c.memory[c.reply.ptr].ty;
          && engine.heap.Keys == old(engine.heap).Keys + (if t.arraySize > 0 then {t.arraySizeLiteral} else {})
    {
      ghost var log0 := engine.log;
      var st, p := engine.InvokeType(id);
      ghost var mem := engine.heap;
      ghost var log1 := engine.log;
      if st.Failure? {
        return Err(st.error);
      }
      var result := ReadType(p);
      ReleaseType(p, mem);
      TypeFreesLeaveLiteral(old(engine.heap), mem, p);
      r := Ok(result);
      assert |log1| == |log0| + 1 && engine.log[..|log1|] == log1;
      PrefixOfPrefix(log0, log1, engine.log);
      assert engine.log[|log0|] == log1[|log0|] == Call(Command.GetType(id), st, Pointer(p), mem);
    }

    /**
     * `rename_interface_variable`: every resource name and the new name must be C
     * strings; only then is the single native call made, with the records in input order.
     */
    method RenameInterfaceVariable(resources: seq<Spirv.Resource>, location: u32, newName: string) returns (r: Outcome)
      requires Valid()
      modifies engine
      ensures Valid()
      ensures AllEncodable(resources) && Encodable(newName) ==>
        StatusQuery(old(engine.log), engine.log, old(engine.heap), engine.heap,
          Command.RenameInterfaceVariable(
            seq(|resources|, i requires 0 <= i < |resources| => RawResource(resources[i])),
            |resources|, location, CString(newName)), r)
      ensures !(AllEncodable(resources) && Encodable(newName)) ==>
        r == Fail(Unhandled) && Untouched(old(engine.log), engine.log, old(engine.heap), engine.heap)
    {
      var names: seq<CString> := [];
      var i := 0;
      while i < |resources|
        invariant 0 <= i <= |resources| && |names| == i
        invariant forall j :: 0 <= j < i ==> Encodable(resources[j].name) && names[j] == CString(resources[j].name)
      {
        match ToCString(resources[i].name) {
          case None =>
            return Fail(Unhandled);
          case Some(c) =>
            names := names + [c];
        }
        i := i + 1;
      }
      var encoded := ToCString(newName);
      if encoded.None? {
        return Fail(Unhandled);
      }
      var name := encoded.value;
      var raw := seq(|resources|, j requires 0 <= j < |resources| =>
        ScResourceIn(resources[j].id, resources[j].typeId, resources[j].baseTypeId, names[j]));
      assert raw == seq(|resources|, j requires 0 <= j < |resources| => RawResource(resources[j]));
      var st := engine.Invoke(Command.RenameInterfaceVariable(raw, |names|, location, name));
      r := OutcomeOf(st);
    }

    /**
     * One category of `get_shader_resources` on a heap from which the categories
     * before it, addresses `lo` up to `from`, are already released.
     */
    method FillStep(a: ScArray, ghost mem: map<Ptr, Block>, ghost lo: nat, ghost from: nat, ghost to: nat, builtin: bool)
      returns (b: Block, texts: seq<string>, ok: bool)
      requires Valid() && CategoryAt(mem, a, builtin)
      requires lo <= from <= to && Footprint(mem, a.data) == Range(from, to)
      requires engine.heap == mem - Range(lo, from)
      modifies engine
      ensures Valid() && b == mem[a.data]
      ensures ok <==> AllNamesReadable(mem, a.data)
      ensures |texts| == ReadableCount(mem, Names(mem, a.data))
      ensures forall j :: 0 <= j < |texts| ==> Text(mem, Names(mem, a.data)[j]) == Some(texts[j])
      ensures ok ==> engine.heap == mem - Range(lo, to)
      ensures engine.heap == old(engine.heap) - Freed(NamedArrayFrees(mem, a.data))
      ensures ThenFreed(old(engine.log), engine.log, NamedArrayFrees(mem, a.data))
    {
      assert AgreesOn(engine.heap, mem, Footprint(mem, a.data));
      b := engine.heap[a.data];
      texts, ok := ReadNamesAndRelease(a.data, mem);
      if ok {
        AllReadFreesFootprint(mem, a.data);
        MinusRanges(mem, lo, from, to);
      }
    }

    /**
     * The state before round `k` of the plain-category loop: categories before `k` are
     * released, their frees are `done`, and their values are `values`.
     */
    ghost predicate PlainRound(arrays: seq<ScArray>, n: nat, mem: map<Ptr, Block>, bounds: seq<nat>, k: nat,
                               values: seq<seq<Spirv.Resource>>, done: seq<Ptr>, log0: seq<Call>)
      reads this, engine
    {
      && k <= n <= 13 && n <= |arrays| && CategoriesLaidOut(mem, arrays, bounds)
      && bounds[0] <= bounds[k] && engine.heap == mem - Range(bounds[0], bounds[k])
      && engine.heap == mem - Freed(done)
      && ThenFreed(log0, engine.log, done)
      && FillFrees(mem, arrays) == done + FillFrees(mem, arrays[k..])
      && PlainValues(mem, arrays[..n]) == Prepend(values, PlainValues(mem, arrays[..n][k..]))
    }

    /** One round of the loop in `FillPlain`: category `k` read, released and appended. */
    method FillPlainStep(arrays: seq<ScArray>, n: nat, ghost mem: map<Ptr, Block>, ghost bounds: seq<nat>, k: nat,
                         values: seq<seq<Spirv.Resource>>, ghost done: seq<Ptr>, ghost log0: seq<Call>)
      returns (category: Result<seq<Spirv.Resource>>, ghost done': seq<Ptr>)
      requires Valid() && k < n && PlainRound(arrays, n, mem, bounds, k, values, done, log0)
      modifies engine
      ensures Valid() && ThenFreed(log0, engine.log, done')
      ensures category.Err? ==> PlainValues(mem, arrays[..n]) == Err(Unhandled) && FillFrees(mem, arrays) == done'
      ensures category.Err? ==> engine.heap == mem - Freed(done')
      ensures category.Ok? ==> PlainRound(arrays, n, mem, bounds, k + 1, values + [category.value], done', log0)
    {
      ghost var logk := engine.log;
      category := FillCategory(arrays[k], mem, bounds[0], bounds[k], bounds[k + 1]);
      PlainFreesAdvance(mem, arrays, k, done);
      assert arrays[..n][k] == arrays[k];
      PlainValuesAdvance(mem, arrays[..n], k, values);
      ThenFreedConcat(log0, logk, engine.log, done, NamedArrayFrees(mem, arrays[k].data));
      done' := done + NamedArrayFrees(mem, arrays[k].data);
      FreedConcat(done, NamedArrayFrees(mem, arrays[k].data));
      if category.Err? {
        assert done' + [] == done';
      }
    }

    /**
     * The first `n` categories of `arrays`, all plain, filled in order from category `k` on:
     * the run of `fill_resources` calls, stopping at the first category with an unreadable name.
     */
    method FillPlainFrom(arrays: seq<ScArray>, n: nat, ghost mem: map<Ptr, Block>, ghost bounds: seq<nat>, k: nat,
                         values: seq<seq<Spirv.Resource>>, ghost done: seq<Ptr>, ghost log0: seq<Call>)
      returns (r: Result<seq<seq<Spirv.Resource>>>, ghost done': seq<Ptr>)
      requires Valid() && PlainRound(arrays, n, mem, bounds, k, values, done, log0)
      modifies engine
      decreases n - k
      ensures Valid() && ThenFreed(log0, engine.log, done')
      ensures r == PlainValues(mem, arrays[..n])
      ensures FillFrees(mem, arrays) == done' + (if r.Ok? then FillFrees(mem, arrays[n..]) else [])
      ensures r.Ok? ==> bounds[0] <= bounds[n] && engine.heap == mem - Range(bounds[0], bounds[n])
      ensures engine.heap == mem - Freed(done')
    {
      if k == n {
        assert arrays[..n][n..] == [] && values + [] == values;
        return Ok(values), done;
      }
      var category;
      category, done' := FillPlainStep(arrays, n, mem, bounds, k, values, done, log0);
      if category.Err? {
        assert done' + [] == done';
        return Err(Unhandled), done';
      }
      r, done' := FillPlainFrom(arrays, n, mem, bounds, k + 1, values + [category.value], done', log0);
    }

    /** The first `n` categories of `arrays`, all plain, filled in order. */
    method FillPlain(arrays: seq<ScArray>, n: nat, ghost mem: map<Ptr, Block>, ghost bounds: seq<nat>)
      returns (r: Result<seq<seq<Spirv.Resource>>>, ghost done: seq<Ptr>)
      requires Valid() && n <= 13 && n <= |arrays| && CategoriesLaidOut(mem, arrays, bounds)
      requires engine.heap == mem
      modifies engine
      ensures Valid()
      ensures r == PlainValues(mem, arrays[..n])
      ensures ThenFreed(old(engine.log), engine.log, done)
      ensures FillFrees(mem, arrays) == done + (if r.Ok? then FillFrees(mem, arrays[n..]) else [])
      ensures r.Ok? ==> bounds[0] <= bounds[n] && engine.heap == mem - Range(bounds[0], bounds[n])
      ensures engine.heap == mem - Freed(done)
    {
      ghost var log0 := engine.log;
      assert Freed([]) == {};
      assert engine.log[|log0|..] == [];
      assert Range(bounds[0], bounds[0]) == {};
      assert arrays[0..] == arrays && arrays[..n][0..] == arrays[..n];
      assert PlainValues(mem, arrays[..n]) == Prepend([], PlainValues(mem, arrays[..n][0..])) by {
        match PlainValues(mem, arrays[..n])
        case Ok(v) => assert [] + v == v;
        case Err(_) =>
      }
      r, done := FillPlainFrom(arrays, n, mem, bounds, 0, [], [], log0);
    }

    /** One `fill_resources` call: a plain category read and released. */
    method FillCategory(a: ScArray, ghost mem: map<Ptr, Block>, ghost lo: nat, ghost from: nat, ghost to: nat)
      returns (r: Result<seq<Spirv.Resource>>)
      requires Valid() && CategoryAt(mem, a, false)
      requires lo <= from <= to && Footprint(mem, a.data) == Range(from, to)
      requires engine.heap == mem - Range(lo, from)
      modifies engine
      ensures Valid() && r == CategoryValue(mem, a)
      ensures ThenFreed(old(engine.log), engine.log, NamedArrayFrees(mem, a.data))
      ensures r.Ok? <==> AllNamesReadable(mem, a.data)
      ensures r.Ok? ==> engine.heap == mem - Range(lo, to)
      ensures engine.heap == old(engine.heap) - Freed(NamedArrayFrees(mem, a.data))
    {
      var b, texts, ok := FillStep(a, mem, lo, from, to, false);
      if !ok {
        return Err(Unhandled);
      }
      CategoryFromTexts(mem, a, texts);
      r := Ok(Category(b.resources, texts));
    }

    /** One `fill_builtin_resources` call: a built-in category read and released. */
    method FillBuiltIn(a: ScArray, ghost mem: map<Ptr, Block>, ghost lo: nat, ghost from: nat, ghost to: nat)
      returns (r: Result<seq<Spirv.BuiltInResource>>)
      requires Valid() && CategoryAt(mem, a, true)
      requires lo <= from <= to && Footprint(mem, a.data) == Range(from, to)
      requires engine.heap == mem - Range(lo, from)
      modifies engine
      ensures Valid() && r == BuiltInCategoryValue(mem, a)
      ensures ThenFreed(old(engine.log), engine.log, NamedArrayFrees(mem, a.data))
      ensures r.Ok? <==> AllNamesReadable(mem, a.data)
      ensures r.Ok? ==> engine.heap == mem - Range(lo, to)
      ensures engine.heap == old(engine.heap) - Freed(NamedArrayFrees(mem, a.data))
    {
      var b, texts, ok := FillStep(a, mem, lo, from, to, true);
      if !ok {
        return Err(Unhandled);
      }
      BuiltInCategoryFromTexts(mem, a, texts);
      r := Ok(BuiltInCategory(b.builtins, texts));
    }

    /** The fifteen `fill_*` calls of `get_shader_resources` over a laid-out reply. */
    method FillAll(all: seq<ScArray>, ghost mem: map<Ptr, Block>, ghost bounds: seq<nat>)
      returns (r: Result<Spirv.ShaderResources>)
      requires Valid() && |all| == 15 && CategoriesLaidOut(mem, all, bounds)
      requires engine.heap == mem
      modifies engine
      ensures Valid() && AllCategoriesAt(mem, all)
      ensures r == ShaderResourcesValue(mem, all)
      ensures ThenFreed(old(engine.log), engine.log, FillFrees(mem, all))
      ensures r.Ok? ==> engine.heap == mem - Range(bounds[0], bounds[15])
      ensures engine.heap == mem - Freed(FillFrees(mem, all))
    {
      ghost var log0 := engine.log;
      var plain, done := FillPlain(all, 13, mem, bounds);
      if plain.Err? {
        assert done + [] == done;
        return Err(plain.error);
      }
      ghost var log1 := engine.log;
      var builtins := FillBuiltIns(all, mem, bounds);
      ThenFreedConcat(log0, log1, engine.log, done, FillFrees(mem, all[13..]));
      FreedConcat(done, FillFrees(mem, all[13..]));
      if builtins.Err? {
        return Err(builtins.error);
      }
      r := Ok(ShaderResourcesOf(plain.value, builtins.value.0, builtins.value.1));
    }

    /** The last two `fill_builtin_resources` calls of `get_shader_resources`. */
    method FillBuiltIns(all: seq<ScArray>, ghost mem: map<Ptr, Block>, ghost bounds: seq<nat>)
      returns (r: Result<(seq<Spirv.BuiltInResource>, seq<Spirv.BuiltInResource>)>)
      requires Valid() && |all| == 15 && CategoriesLaidOut(mem, all, bounds)
      requires bounds[0] <= bounds[13] && engine.heap == mem - Range(bounds[0], bounds[13])
      modifies engine
      ensures Valid() && AllCategoriesAt(mem, all)
      ensures r == BuiltInsValue(mem, all)
      ensures ThenFreed(old(engine.log), engine.log, FillFrees(mem, all[13..]))
      ensures r.Ok? ==> engine.heap == mem - Range(bounds[0], bounds[15])
      ensures engine.heap == old(engine.heap) - Freed(FillFrees(mem, all[13..]))
    {
      FillFreesBuiltIns(mem, all);
      ghost var first := NamedArrayFrees(mem, all[13].data);
      ghost var second := NamedArrayFrees(mem, all[14].data);
      ghost var log0 := engine.log;
      var inputs := FillBuiltIn(all[13], mem, bounds[0], bounds[13], bounds[14]);
      if inputs.Err? {
        assert first + [] == first;
        return Err(inputs.error);
      }
      ghost var log1 := engine.log;
      var outputs := FillBuiltIn(all[14], mem, bounds[0], bounds[14], bounds[15]);
      ThenFreedConcat(log0, log1, engine.log, first, second);
      FreedConcat(first, second);
      if outputs.Err? {
        return Err(outputs.error);
      }
      r := Ok((inputs.value, outputs.value));
    }

    /**
     * `get_shader_resources`: the thirteen plain categories, then the built-in inputs and
     * outputs, each category's array and names released as it is read.
     */
    method GetShaderResources() returns (r: Result<Spirv.ShaderResources>)
      requires Valid()
      modifies engine
      ensures Valid()
      ensures Issued(old(engine.log), engine.log, Command.GetShaderResources)
      ensures var c := engine.log[|old(engine.log)|];
        if c.status.Failure? then
          r == Err(c.status.error) && Rest(old(engine.log), engine.log) == [] && engine.heap == old(engine.heap)
        else
          && c.reply.ShaderResourcesReply? && AllCategoriesAt(c.memory, c.reply.raw.All())
          && r == ShaderResourcesValue(c.memory, c.reply.raw.All())
          && FreesInOrder(Rest(old(engine.log), engine.log), FillFrees(c.memory, c.reply.raw.All()))
          && engine.heap == c.memory - Freed(FillFrees(c.memory, c.reply.raw.All()))
          && (r.Ok? ==> engine.heap == old(engine.heap))
    {
      ghost var log0 := engine.log;
      ghost var heap0 := engine.heap;
      var st, raw, bounds := engine.InvokeShaderResources();
      ghost var mem := engine.heap;
      ghost var log1 := engine.log;
      if st.Failure? {
        assert engine.log[|log0| + 1..] == [];
        return Err(st.error);
      }
      r := FillAll(raw.All(), mem, bounds);
      PrefixOfPrefix(log0, log1, engine.log);
      assert engine.log[|log0| + 1..] == engine.log[|log1|..];
      assert engine.log[|log0|] == log1[|log0|] == Call(Command.GetShaderResources, st, ShaderResourcesReply(raw), mem);
      if r.Ok? {
        ReleaseAll(heap0, mem, Range(bounds[0], bounds[15]));
      }
    }

    /** `Drop`: deletes the native instance; every later command is then excluded. */
    method Drop()
      requires Valid()
      modifies engine
      ensures engine.deleted && engine.heap == old(engine.heap)
      ensures engine.log == old(engine.log) + [Call(Command.Delete, Success, NoReply, engine.heap)]
    {
      engine.Delete();
    }
  }
}
