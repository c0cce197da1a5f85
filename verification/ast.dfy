/**
 * `Ast<msl::Target>`: a compiler handle together with the MSL target data. `parse`
 * creates it, `set_compiler_options` passes the options to the native side and keeps
 * the three override tables, `compile` hands those tables to the native compiler, and
 * every other query is forwarded to the wrapped `Compiler`.
 */
module Ast {
  import opened Common
  import Spv
  import Spirv
  import opened Native
  import opened Msl
  import opened Compiler

  /** The native commands `set_compiler_options` issues for options whose entry-point name is encodable. */
  ghost function OptionsCommands(o: CompilerOptions): seq<Command>
  {
    match o.entryPoint {
      case None => [MslSetOptions(RawOptions(o))]
      case Some((name, model)) => [MslSetEntryPoint(CString(name), model), MslSetOptions(RawOptions(o))]
    }
  }

  /** The options can be passed on: there is no entry point, or its name holds no NUL. */
  predicate EntryPointEncodable(o: CompilerOptions)
  {
    o.entryPoint.Some? ==> Encodable(o.entryPoint.value.0)
  }

  /**
   * `cmds` were issued in order after `log0`, each checked: the run stops at the first
   * failing one, whose error is `r`, and `r` passes only when every command was issued.
   */
  ghost predicate RanInOrder(log0: seq<Call>, log1: seq<Call>, cmds: seq<Command>, r: Outcome)
  {
    && |log0| < |log1| <= |log0| + |cmds|
    && log1[..|log0|] == log0
    && (forall i :: |log0| <= i < |log1| ==> log1[i].cmd == cmds[i - |log0|])
    && (forall i :: |log0| <= i < |log1| - 1 ==> log1[i].status.Success?)
    && r == StatusOutcome(log1[|log1| - 1])
    && (r.Pass? <==> |log1| == |log0| + |cmds| && log1[|log1| - 1].status.Success?)
  }

  /** The command `compile_internal` issues: the three tables, each with its length. */
  function CompileCommand(td: TargetData): (cmd: Command)
    reads td
    ensures cmd.MslCompile? && cmd.RepliesString()
    ensures cmd.vertexAttributesSize == |cmd.vertexAttributes| == |td.vertexAttributeOverrides|
    ensures cmd.resourceBindingsSize == |cmd.resourceBindings| == |td.resourceBindingOverrides|
    ensures cmd.constSamplersSize == |cmd.constSamplers| == |td.constSamplers|
  {
    MslCompile(td.vertexAttributeOverrides, |td.vertexAttributeOverrides|,
               td.resourceBindingOverrides, |td.resourceBindingOverrides|,
               td.constSamplers, |td.constSamplers|)
  }

  /** The tables `set_compiler_options` leaves behind for `o`. */
  ghost predicate TablesOf(td: TargetData, o: CompilerOptions)
    reads td
  {
    && td.resourceBindingOverrides == ResourceBindingTable(o.resourceBindingOverrides)
    && td.vertexAttributeOverrides == VertexAttributeTable(o.vertexAttributeOverrides)
    && td.constSamplers == ConstSamplerTable(o.constSamplers)
  }

  /**
   * After a successful `set_compiler_options(o)`, `compile` passes one record per override
   * of `o`, each table strictly ascending by its key.
   */
  lemma CompileCarriesOptions(td: TargetData, o: CompilerOptions)
    requires TablesOf(td, o)
    ensures var cmd := CompileCommand(td);
      && cmd.resourceBindingsSize == |o.resourceBindingOverrides|
      && cmd.vertexAttributesSize == |o.vertexAttributeOverrides|
      && cmd.constSamplersSize == |o.constSamplers|
      && (forall i :: 0 <= i < |cmd.vertexAttributes| ==>
            cmd.vertexAttributes[i].component == 0
            && VertexAttributeKey(cmd.vertexAttributes[i]) in o.vertexAttributeOverrides)
      && (forall k :: k in o.resourceBindingOverrides ==>
            exists i :: 0 <= i < |cmd.resourceBindings| && ResourceBindingKey(cmd.resourceBindings[i]) == k)
  {
    ResourceBindingTableContents(o.resourceBindingOverrides);
    VertexAttributeTableContents(o.vertexAttributeOverrides);
    ConstSamplerTableContents(o.constSamplers);
  }

  class Ast {
    const compiler: Compiler<TargetData>

    /** The wrapped compiler's native instance is live. */
    ghost predicate Valid()
      reads this, compiler, compiler.engine
    {
      compiler.Valid()
    }

    constructor (compiler: Compiler<TargetData>)
      ensures this.compiler == compiler
    {
      this.compiler := compiler;
    }

    /**
     * `parse`: a fresh native MSL compiler over the module's words, empty override tables,
     * and `compile` not yet called. A failing native call leaves no instance.
     */
    static method Parse(spirvModule: Spirv.Module) returns (r: Result<Ast>)
      ensures r.Ok? ==> var a := r.value;
        && fresh(a) && fresh(a.compiler) && fresh(a.compiler.engine) && fresh(a.compiler.targetData)
        && a.Valid() && !a.compiler.hasBeenCompiled
        && a.compiler.targetData.vertexAttributeOverrides == []
        && a.compiler.targetData.resourceBindingOverrides == []
        && a.compiler.targetData.constSamplers == []
        && a.compiler.engine.heap == map[]
        && a.compiler.engine.log == [Call(MslNew(spirvModule.words), Success, NoReply, map[])]
    {
      var st, e := Engine.MslNewInstance(spirvModule.words);
      if st.Failure? {
        return Err(st.error);
      }
      var td := new TargetData();
      var c := new Compiler(e, td);
      var a := new Ast(c);
      r := Ok(a);
    }

    /**
     * `set_compiler_options`: an entry-point name holding NUL is refused before any native
     * call; otherwise the entry point (when given) and the raw options are set, stopping at
     * the first failure, and only after both succeed are the three tables rebuilt.
     */
    method SetCompilerOptions(o: CompilerOptions) returns (r: Outcome)
      requires Valid()
      modifies compiler.engine, compiler.targetData
      ensures Valid() && compiler.hasBeenCompiled == old(compiler.hasBeenCompiled)
      ensures compiler.engine.heap == old(compiler.engine.heap)
      ensures !EntryPointEncodable(o) ==> r == Fail(Unhandled) && compiler.engine.log == old(compiler.engine.log)
      ensures EntryPointEncodable(o) ==> RanInOrder(old(compiler.engine.log), compiler.engine.log, OptionsCommands(o), r)
      ensures r.Fail? ==> unchanged(compiler.targetData)
      ensures r.Pass? ==> TablesOf(compiler.targetData, o)
    {
      ghost var log0 := compiler.engine.log;
      ghost var cmds := OptionsCommands(o);
      if o.entryPoint.Some? {
        var (name, model) := o.entryPoint.value;
        var nameRaw := ToCString(name);
        if nameRaw.None? {
          return Fail(Unhandled);
        }
        var st := compiler.engine.Invoke(MslSetEntryPoint(nameRaw.value, model));
        if st.Failure? {
          return Fail(st.error);
        }
      }
      var st := compiler.engine.Invoke(MslSetOptions(RawOptions(o)));
      if st.Failure? {
        return Fail(st.error);
      }
      compiler.targetData.Refill(o);
      r := Pass;
    }

    /** `compile_internal`: the native compiler receives the three tables and returns the source text. */
    method CompileInternal() returns (r: Result<string>)
      requires Valid()
      modifies compiler.engine
      ensures Valid() && compiler.hasBeenCompiled == old(compiler.hasBeenCompiled)
      ensures StringQuery(old(compiler.engine.log), compiler.engine.log, old(compiler.engine.heap), compiler.engine.heap,
                          CompileCommand(compiler.targetData), r)
    {
      var td := compiler.targetData;
      r := compiler.QueryString(MslCompile(td.vertexAttributeOverrides, |td.vertexAttributeOverrides|,
                                           td.resourceBindingOverrides, |td.resourceBindingOverrides|,
                                           td.constSamplers, |td.constSamplers|));
    }

    /** `compile`: marks the handle compiled, whatever the outcome, then compiles. */
    method Compile() returns (r: Result<string>)
      requires Valid()
      modifies compiler, compiler.engine
      ensures Valid() && compiler.hasBeenCompiled
      ensures StringQuery(old(compiler.engine.log), compiler.engine.log, old(compiler.engine.heap), compiler.engine.heap,
                          CompileCommand(compiler.targetData), r)
    {
      compiler.hasBeenCompiled := true;
      r := CompileInternal();
    }

    /**
     * `get_cleansed_entry_point_name`: refused with a compilation error until `compile`
     * has been called; afterwards the compiler's query.
     */
    method GetCleansedEntryPointName(name: string, model: Spv.ExecutionModel) returns (r: Result<string>)
      requires Valid()
      modifies compiler.engine
      ensures Valid() && compiler.hasBeenCompiled == old(compiler.hasBeenCompiled)
      ensures !compiler.hasBeenCompiled ==>
        r == Err(CompilationError("`compile` must be called first"))
        && Untouched(old(compiler.engine.log), compiler.engine.log, old(compiler.engine.heap), compiler.engine.heap)
      ensures compiler.hasBeenCompiled && Encodable(name) ==>
        StringQuery(old(compiler.engine.log), compiler.engine.log, old(compiler.engine.heap), compiler.engine.heap,
                    Command.GetCleansedEntryPointName(CString(name), model), r)
      ensures compiler.hasBeenCompiled && !Encodable(name) ==>
        r == Err(Unhandled) && Untouched(old(compiler.engine.log), compiler.engine.log, old(compiler.engine.heap), compiler.engine.heap)
    {
      if compiler.hasBeenCompiled {
        r := compiler.GetCleansedEntryPointName(name, model);
      } else {
        r := Err(CompilationError("`compile` must be called first"));
      }
    }

    /** `is_rasterization_enabled`: the negation of the native "disabled" flag. */
    method IsRasterizationEnabled() returns (r: Result<bool>)
      requires Valid()
      modifies compiler.engine
      ensures Valid() && compiler.hasBeenCompiled == old(compiler.hasBeenCompiled)
      ensures Issued(old(compiler.engine.log), compiler.engine.log, MslGetIsRasterizationDisabled)
      ensures |compiler.engine.log| == |old(compiler.engine.log)| + 1
      ensures compiler.engine.heap == old(compiler.engine.heap)
      ensures var c := compiler.engine.log[|old(compiler.engine.log)|];
        && (c.status.Failure? ==> r == Err(c.status.error))
        && (c.status.Success? ==> c.reply.Flag? && r == Ok(!c.reply.flag))
    {
      var st, disabled := compiler.engine.GetIsRasterizationDisabled();
      if st.Failure? {
        return Err(st.error);
      }
      r := Ok(!disabled);
    }

    /** `get_automatic_msl_resource_binding`. */
    method GetAutomaticMslResourceBinding(id: u32) returns (r: Result<u32>)
      requires Valid()
      modifies compiler.engine
      ensures Valid() && compiler.hasBeenCompiled == old(compiler.hasBeenCompiled)
      ensures WordQuery(old(compiler.engine.log), compiler.engine.log, old(compiler.engine.heap), compiler.engine.heap,
                        Command.GetAutomaticMslResourceBinding(id), r)
    {
      var st, w := compiler.engine.InvokeWord(Command.GetAutomaticMslResourceBinding(id));
      r := if st.Failure? then Err(st.error) else Ok(w);
    }

    /** `get_decoration`. */
    method GetDecoration(id: u32, decoration: Spv.Decoration) returns (r: Result<u32>)
      requires Valid()
      modifies compiler.engine
      ensures Valid() && compiler.hasBeenCompiled == old(compiler.hasBeenCompiled)
      ensures WordQuery(old(compiler.engine.log), compiler.engine.log, old(compiler.engine.heap), compiler.engine.heap, Command.GetDecoration(id, decoration), r)
    {
      r := compiler.GetDecoration(id, decoration);
    }

    /** `get_name`. */
    method GetName(id: u32) returns (r: Result<string>)
      requires Valid()
      modifies compiler.engine
      ensures Valid() && compiler.hasBeenCompiled == old(compiler.hasBeenCompiled)
      ensures StringQuery(old(compiler.engine.log), compiler.engine.log, old(compiler.engine.heap), compiler.engine.heap, Command.GetName(id), r)
    {
      r := compiler.GetName(id);
    }

    /** `set_name`: a name holding NUL is refused before any native call. */
    method SetName(id: u32, name: string) returns (r: Outcome)
      requires Valid()
      modifies compiler.engine
      ensures Valid() && compiler.hasBeenCompiled == old(compiler.hasBeenCompiled)
      ensures Encodable(name) ==>
        StatusQuery(old(compiler.engine.log), compiler.engine.log, old(compiler.engine.heap), compiler.engine.heap, Command.SetName(id, CString(name)), r)
      ensures !Encodable(name) ==>
        r == Fail(Unhandled) && Untouched(old(compiler.engine.log), compiler.engine.log, old(compiler.engine.heap), compiler.engine.heap)
    {
      r := compiler.SetName(id, name);
    }

    /** `set_member_name`: a name holding NUL is refused before any native call. */
    method SetMemberName(id: u32, index: u32, name: string) returns (r: Outcome)
      requires Valid()
      modifies compiler.engine
      ensures Valid() && compiler.hasBeenCompiled == old(compiler.hasBeenCompiled)
      ensures Encodable(name) ==>
        StatusQuery(old(compiler.engine.log), compiler.engine.log, old(compiler.engine.heap), compiler.engine.heap, Command.SetMemberName(id, index, CString(name)), r)
      ensures !Encodable(name) ==>
        r == Fail(Unhandled) && Untouched(old(compiler.engine.log), compiler.engine.log, old(compiler.engine.heap), compiler.engine.heap)
    {
      r := compiler.SetMemberName(id, index, name);
    }

    /** `unset_decoration`. */
    method UnsetDecoration(id: u32, decoration: Spv.Decoration) returns (r: Outcome)
      requires Valid()
      modifies compiler.engine
      ensures Valid() && compiler.hasBeenCompiled == old(compiler.hasBeenCompiled)
      ensures StatusQuery(old(compiler.engine.log), compiler.engine.log, old(compiler.engine.heap), compiler.engine.heap, Command.UnsetDecoration(id, decoration), r)
    {
      r := compiler.UnsetDecoration(id, decoration);
    }

    /** `set_decoration`. */
    method SetDecoration(id: u32, decoration: Spv.Decoration, argument: u32) returns (r: Outcome)
      requires Valid()
      modifies compiler.engine
      ensures Valid() && compiler.hasBeenCompiled == old(compiler.hasBeenCompiled)
      ensures StatusQuery(old(compiler.engine.log), compiler.engine.log, old(compiler.engine.heap), compiler.engine.heap, Command.SetDecoration(id, decoration, argument), r)
    {
      r := compiler.SetDecoration(id, decoration, argument);
    }

    /** `get_entry_points`. */
    method GetEntryPoints() returns (r: Result<seq<Spirv.EntryPoint>>)
      requires Valid()
      modifies compiler.engine
      ensures Valid() && compiler.hasBeenCompiled == old(compiler.hasBeenCompiled)
      ensures Issued(old(compiler.engine.log), compiler.engine.log, Command.GetEntryPoints)
      ensures var c := compiler.engine.log[|old(compiler.engine.log)|];
        if c.status.Failure? then
          r == Err(c.status.error) && Rest(old(compiler.engine.log), compiler.engine.log) == [] && compiler.engine.heap == old(compiler.engine.heap)
        else
          && c.reply.Array? && c.reply.ptr in c.memory && c.memory[c.reply.ptr].EntryPoints?
          && r == EntryPointsValue(c.memory, c.reply.ptr)
          && FreesInOrder(Rest(old(compiler.engine.log), compiler.engine.log), NamedArrayFrees(c.memory, c.reply.ptr))
          && compiler.engine.heap == c.memory - Freed(NamedArrayFrees(c.memory, c.reply.ptr))
          && (r.Ok? ==> compiler.engine.heap == old(compiler.engine.heap))
    {
      r := compiler.GetEntryPoints();
    }

    /** `get_active_buffer_ranges`. */
    method GetActiveBufferRanges(id: u32) returns (r: Result<seq<Spirv.BufferRange>>)
      requires Valid()
      modifies compiler.engine
      ensures Valid() && compiler.hasBeenCompiled == old(compiler.hasBeenCompiled)
      ensures BufferQuery(old(compiler.engine.log), compiler.engine.log, old(compiler.engine.heap), compiler.engine.heap, Command.GetActiveBufferRanges(id))
      ensures r == BufferRangesValue(compiler.engine.log[|old(compiler.engine.log)|])
    {
      r := compiler.GetActiveBufferRanges(id);
    }

    /** `get_specialization_constants`. */
    method GetSpecializationConstants() returns (r: Result<seq<Spirv.SpecializationConstant>>)
      requires Valid()
      modifies compiler.engine
      ensures Valid() && compiler.hasBeenCompiled == old(compiler.hasBeenCompiled)
      ensures BufferQuery(old(compiler.engine.log), compiler.engine.log, old(compiler.engine.heap), compiler.engine.heap, Command.GetSpecializationConstants)
      ensures r == SpecializationConstantsValue(compiler.engine.log[|old(compiler.engine.log)|])
    {
      r := compiler.GetSpecializationConstants();
    }

    /** `set_scalar_constant`: the 64-bit value travels as its high and low 32-bit halves. */
    method SetScalarConstant(id: u32, value: u64) returns (r: Outcome)
      requires Valid()
      modifies compiler.engine
      ensures Valid() && compiler.hasBeenCompiled == old(compiler.hasBeenCompiled)
      ensures StatusQuery(old(compiler.engine.log), compiler.engine.log, old(compiler.engine.heap), compiler.engine.heap,
                          Command.SetScalarConstant(id, SplitScalar(value).0, SplitScalar(value).1), r)
    {
      r := compiler.SetScalarConstant(id, value);
    }

    /**
     * `get_shader_resources`: the thirteen plain categories, then the built-in inputs and
     * outputs, each category's array and names released as it is read.
     */
    method GetShaderResources() returns (r: Result<Spirv.ShaderResources>)
      requires Valid()
      modifies compiler.engine
      ensures Valid() && compiler.hasBeenCompiled == old(compiler.hasBeenCompiled)
      ensures Issued(old(compiler.engine.log), compiler.engine.log, Command.GetShaderResources)
      ensures var c := compiler.engine.log[|old(compiler.engine.log)|];
        if c.status.Failure? then
          r == Err(c.status.error) && Rest(old(compiler.engine.log), compiler.engine.log) == [] && compiler.engine.heap == old(compiler.engine.heap)
        else
          && c.reply.ShaderResourcesReply? && AllCategoriesAt(c.memory, c.reply.raw.All())
          && r == ShaderResourcesValue(c.memory, c.reply.raw.All())
          && FreesInOrder(Rest(old(compiler.engine.log), compiler.engine.log), FillFrees(c.memory, c.reply.raw.All()))
          && compiler.engine.heap == c.memory - Freed(FillFrees(c.memory, c.reply.raw.All()))
          && (r.Ok? ==> compiler.engine.heap == old(compiler.engine.heap))
    {
      r := compiler.GetShaderResources();
    }

    /**
     * `get_type`: builds the type, then releases the member types and the dimensions
     * when present, then the record. The literal flags are never released.
     */
    method GetType(id: u32) returns (r: Result<Spirv.Type>)
      requires Valid()
      modifies compiler.engine
      ensures Valid() && compiler.hasBeenCompiled == old(compiler.hasBeenCompiled)
      ensures Issued(old(compiler.engine.log), compiler.engine.log, Command.GetType(id))
      ensures var c := compiler.engine.log[|old(compiler.engine.log)|];
        if c.status.Failure? then
          r == Err(c.status.error) && |compiler.engine.log| == |old(compiler.engine.log)| + 1 && compiler.engine.heap == old(compiler.engine.heap)
        else
          && c.reply.Pointer? && TypeRecordAt(c.memory, c.reply.ptr)
          && r == Ok(TypeValue(c.memory, c.reply.ptr))
          && ThenFreed(compiler.engine.log[..|old(compiler.engine.log)| + 1], compiler.engine.log, TypeFrees(c.memory[c.reply.ptr].ty, c.reply.ptr))
          && compiler.engine.heap == c.memory - Freed(TypeFrees(c.memory[c.reply.ptr].ty, c.reply.ptr))
          && var t := c.memory[c.reply.ptr].ty;
          && compiler.engine.heap.Keys == old(compiler.engine.heap).Keys + (if t.arraySize > 0 then {t.arraySizeLiteral} else {})
    {
      r := compiler.GetType(id);
    }

    /** `get_member_name`. */
    method GetMemberName(id: u32, index: u32) returns (r: Result<string>)
      requires Valid()
      modifies compiler.engine
      ensures Valid() && compiler.hasBeenCompiled == old(compiler.hasBeenCompiled)
      ensures StringQuery(old(compiler.engine.log), compiler.engine.log, old(compiler.engine.heap), compiler.engine.heap, Command.GetMemberName(id, index), r)
    {
      r := compiler.GetMemberName(id, index);
    }

    /** `get_member_decoration`. */
    method GetMemberDecoration(id: u32, index: u32, decoration: Spv.Decoration) returns (r: Result<u32>)
      requires Valid()
      modifies compiler.engine
      ensures Valid() && compiler.hasBeenCompiled == old(compiler.hasBeenCompiled)
      ensures WordQuery(old(compiler.engine.log), compiler.engine.log, old(compiler.engine.heap), compiler.engine.heap,
                        Command.GetMemberDecoration(id, index, decoration), r)
    {
      r := compiler.GetMemberDecoration(id, index, decoration);
    }

    /** `set_member_decoration`. */
    method SetMemberDecoration(id: u32, index: u32, decoration: Spv.Decoration, argument: u32) returns (r: Outcome)
      requires Valid()
      modifies compiler.engine
      ensures Valid() && compiler.hasBeenCompiled == old(compiler.hasBeenCompiled)
      ensures StatusQuery(old(compiler.engine.log), compiler.engine.log, old(compiler.engine.heap), compiler.engine.heap,
                          Command.SetMemberDecoration(id, index, decoration, argument), r)
    {
      r := compiler.SetMemberDecoration(id, index, decoration, argument);
    }

    /** `get_declared_struct_size`. */
    method GetDeclaredStructSize(id: u32) returns (r: Result<u32>)
      requires Valid()
      modifies compiler.engine
      ensures Valid() && compiler.hasBeenCompiled == old(compiler.hasBeenCompiled)
      ensures WordQuery(old(compiler.engine.log), compiler.engine.log, old(compiler.engine.heap), compiler.engine.heap, Command.GetDeclaredStructSize(id), r)
    {
      r := compiler.GetDeclaredStructSize(id);
    }

    /** `get_declared_struct_member_size`. */
    method GetDeclaredStructMemberSize(id: u32, index: u32) returns (r: Result<u32>)
      requires Valid()
      modifies compiler.engine
      ensures Valid() && compiler.hasBeenCompiled == old(compiler.hasBeenCompiled)
      ensures WordQuery(old(compiler.engine.log), compiler.engine.log, old(compiler.engine.heap), compiler.engine.heap,
                        Command.GetDeclaredStructMemberSize(id, index), r)
    {
      r := compiler.GetDeclaredStructMemberSize(id, index);
    }

    /**
     * `rename_interface_variable`: every resource name and the new name must be C
     * strings; only then is the single native call made, with the records in input order.
     */
    method RenameInterfaceVariable(resources: seq<Spirv.Resource>, location: u32, newName: string) returns (r: Outcome)
      requires Valid()
      modifies compiler.engine
      ensures Valid() && compiler.hasBeenCompiled == old(compiler.hasBeenCompiled)
      ensures AllEncodable(resources) && Encodable(newName) ==>
        StatusQuery(old(compiler.engine.log), compiler.engine.log, old(compiler.engine.heap), compiler.engine.heap,
          Command.RenameInterfaceVariable(
            seq(|resources|, i requires 0 <= i < |resources| => RawResource(resources[i])),
            |resources|, location, CString(newName)), r)
      ensures !(AllEncodable(resources) && Encodable(newName)) ==>
        r == Fail(Unhandled) && Untouched(old(compiler.engine.log), compiler.engine.log, old(compiler.engine.heap), compiler.engine.heap)
    {
      r := compiler.RenameInterfaceVariable(resources, location, newName);
    }

    /** `get_active_interface_variables`: the answered ids with duplicates collapsed. */
    method GetActiveInterfaceVariables() returns (r: Result<set<u32>>)
      requires Valid()
      modifies compiler.engine
      ensures Valid() && compiler.hasBeenCompiled == old(compiler.hasBeenCompiled)
      ensures BufferQuery(old(compiler.engine.log), compiler.engine.log, old(compiler.engine.heap), compiler.engine.heap, Command.GetActiveInterfaceVariables)
      ensures r == InterfaceVariablesValue(compiler.engine.log[|old(compiler.engine.log)|])
    {
      r := compiler.GetActiveInterfaceVariables();
    }

    /** `get_work_group_size_specialization_constants`: the three answered constants, then the buffer is released. */
    method GetWorkGroupSizeSpecializationConstants() returns (r: Result<Spirv.WorkGroupSizeSpecializationConstants>)
      requires Valid()
      modifies compiler.engine
      ensures Valid() && compiler.hasBeenCompiled == old(compiler.hasBeenCompiled)
      ensures BufferQuery(old(compiler.engine.log), compiler.engine.log, old(compiler.engine.heap), compiler.engine.heap,
                          Command.GetWorkGroupSizeSpecializationConstants)
      ensures r == WorkGroupSizeConstantsValue(compiler.engine.log[|old(compiler.engine.log)|])
    {
      r := compiler.GetWorkGroupSizeSpecializationConstants();
    }
  }
}
