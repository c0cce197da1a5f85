# spirv_cross wrapper — a Dafny model

This project models the safe Rust wrapper around the SPIRV-Cross shader compiler, restricted to the
Metal Shading Language (MSL) target. It covers the following parts of the wrapper.

- **The built-in correspondence.** The public `BuiltIn` enumeration mirrors the native `spv::BuiltIn`
  enumeration. `built_in_as_raw` encodes an optional built-in, with the native sentinel `Max` standing
  for "none". `BuiltIn::from_raw` decodes every native member except `Max` (`Spv`, `Spirv`).
- **The compiler handle and its memory discipline.** A `Compiler` owns one native compiler instance.
  Every query issues one native command and copies the answer into owned values. It then releases,
  in a fixed order, the native buffers it was handed. The native side is an abstract engine
  (`Native.Engine`). The engine keeps a heap of live native allocations and a log of every command
  issued, with the status, the reply and the allocations live just after it. Answers are chosen
  nondeterministically within the shape each native entry point guarantees (the reply kind and length,
  fresh allocations, built-ins other than `Max`), and every contract holds for any such answer
  (`Compiler`).
- **The MSL options and the target data.** `CompilerOptions` with its defaults, and its translation
  into the native option record. The three override maps become three native tables, each flattened
  in ascending key order (`Msl`, `Ordered`). `TargetData` keeps the tables between
  `set_compiler_options` and `compile`.
- **The `Ast` handle** for the MSL target: `parse`, `set_compiler_options`, `compile`, the
  `has_been_compiled` guard on the cleansed entry-point name, the two MSL-only queries, and the
  forwarding of every other query to the wrapped compiler (`Ast`).
- **The enum-renaming callbacks of the bindings generator.** The Pascal-case conversion is a library
  function and is taken as a parameter. The regular expression `\d+(?:F|I|UI|U)` is written as an
  explicit left-to-right scan and is proved equal to a pointwise description (`RenameEnums`).

The command vocabulary (`Native.Command`) names one native entry point per constructor. A contract such
as `StringQuery(old(log), log, old(heap), heap, cmd, r)` (in `Compiler`) says the following:

- `cmd` was issued;
- `r` is its error, its text, or `Unhandled` when the text is not valid UTF-8;
- a string read successfully was then released;
- nothing else was allocated or released.

`StatusQuery`, `WordQuery`, `BufferQuery` and `Untouched` play the same part for the other shapes of
query. `Untouched` means no native call was made.

## Model

| member | source | states |
|---|---|---|
| Spirv.NativeBuiltInFromRaw | spirv_cross/src/spirv.rs:128-236 | `from_raw` maps every native member other than `Max` to the public variant of the same name |
| Spirv.BuiltInFromRaw | spirv_cross/src/spirv.rs:128-236 | `from_raw` on every native member other than `Max`; the sentinel is excluded by the precondition, as the `unreachable!` arm is never reached (see `Native.Engine` under Left out); its contents are stated by `Spirv.NativeBuiltInFromRaw` |
| Spirv.NativeBuiltIn | spirv_cross/src/spirv.rs:245-349 | the `Some` arms of `built_in_as_raw`: a present built-in never encodes to `Max` |
| Spirv.BuiltInAsRaw | spirv_cross/src/spirv.rs:240-351 | the result is `Max` exactly for `None`; a present built-in decodes back to itself through `from_raw` |
| Spirv.BuiltInAsRawSentinel | spirv_cross/src/spirv.rs:240-244 | `built_in_as_raw` yields `Max` exactly for `None` |
| Spirv.BuiltInRoundTrip | spirv_cross/src/spirv.rs:240-350 | every public built-in encodes to a member other than `Max`, and `from_raw` decodes it back to itself |
| Spirv.BuiltInRawRoundTrip | spirv_cross/src/spirv.rs:128-236 | every native member other than `Max` decodes to a built-in that encodes back to that member |
| Spirv.BuiltInAsRawInjective | spirv_cross/src/spirv.rs:240-350 | two optional built-ins with the same encoding are equal |
| Spirv.FromWords | spirv_cross/src/spirv.rs:558-563 | the module view holds exactly the given words |
| Compiler.ImageTypeFromRaw | spirv_cross/src/compiler.rs:11-23 | the native descriptor can be rebuilt from the public image type |
| Compiler.ImageTypeLossless | spirv_cross/src/compiler.rs:11-23 | all seven image fields are copied: the native descriptor can be rebuilt, so the conversion is injective |
| Compiler.TypeFromRaw | spirv_cross/src/compiler.rs:25-98 | the variant is the one the tag names; it carries the given arrays, vector size, columns, member types and image wherever it has room for them |
| Compiler.TypeFromRawShape | spirv_cross/src/compiler.rs:25-98 | which tags carry which fields: six field-free tags; `columns` only for the six numeric tags that have it; `vecsize` additionally for the 64-bit and small integers; an image only for `Image` and `SampledImage` |
| Compiler.SplitScalar | spirv_cross/src/compiler.rs:350-363 | the high and low 32-bit halves of the value recombine to it |
| Compiler.SplitScalarUnique | spirv_cross/src/compiler.rs:350-363 | any two 32-bit halves that recombine to the value are the ones sent |
| Compiler.TypeArraysAgree | spirv_cross/src/compiler.rs:365-394 | the dimensions and the literal flags of a type have the same length, the native `array_size` |
| Compiler.TypeFreesLeaveLiteral | spirv_cross/src/compiler.rs:380-390 | after the frees of `get_type`, the literal-flags buffer is the only allocation of the answer still live |
| Compiler.AllReadFreesFootprint | spirv_cross/src/compiler.rs:218-258 | when every name is readable, the frees are exactly the array and its names |
| Compiler.EntryPointsFromTexts | spirv_cross/src/compiler.rs:229-250 | entry points built from the names as read are the specified value of the query |
| Compiler.CategoryFromTexts | spirv_cross/src/compiler.rs:484-505 | resources built from the names as read are the specified value of the category |
| Compiler.BuiltInCategoryFromTexts | spirv_cross/src/compiler.rs:507-532 | built-in resources built from the names as read are the specified value of the category |
| Compiler.PlainValues | spirv_cross/src/compiler.rs:534-547 | the plain categories in order, stopping at the first with an unreadable name; an `Ok` result holds one list per category |
| Compiler.Compiler.constructor | spirv_cross/src/compiler.rs:100-105 | a compiler over a live instance, not yet compiled |
| Compiler.Compiler.ReadAndFree | spirv_cross/src/compiler.rs:135-147 | a readable string is returned and released; an unreadable one yields `Unhandled` and stays allocated |
| Compiler.Compiler.QueryString | spirv_cross/src/compiler.rs:396-409 | the string query: `StringQuery` of the command |
| Compiler.Compiler.GetDecoration | spirv_cross/src/compiler.rs:122-133 | one `get_decoration` command, its word or its error, heap unchanged |
| Compiler.Compiler.GetName | spirv_cross/src/compiler.rs:135-147 | the string query for `get_name` |
| Compiler.Compiler.SetName | spirv_cross/src/compiler.rs:149-164 | a name holding NUL gives `Unhandled` with no native call; otherwise one `set_name` command and its status |
| Compiler.Compiler.SetMemberName | spirv_cross/src/compiler.rs:166-182 | the same for `set_member_name` |
| Compiler.Compiler.UnsetDecoration | spirv_cross/src/compiler.rs:184-198 | one `unset_decoration` command and its status |
| Compiler.Compiler.SetDecoration | spirv_cross/src/compiler.rs:200-216 | one `set_decoration` command with its argument, and its status |
| Compiler.Compiler.ReadNamesAndRelease | spirv_cross/src/compiler.rs:229-250 | names are read and released in order up to the first unreadable one; then the array is released; `ok` iff every name was readable |
| Compiler.Compiler.GetEntryPoints | spirv_cross/src/compiler.rs:218-258 | on success, one entry point per native record in order with its name; the frees are the names then the array; a full read leaves the heap as before |
| Compiler.Compiler.GetActiveBufferRanges | spirv_cross/src/compiler.rs:260-291 | every native range in order with fields copied; the buffer is released once; heap as before |
| Compiler.Compiler.GetCleansedEntryPointName | spirv_cross/src/compiler.rs:293-314 | a name holding NUL gives `Unhandled` with no call; otherwise the string query with the name and model |
| Compiler.Compiler.GetSpecializationConstants | spirv_cross/src/compiler.rs:316-348 | every native constant in order with fields copied; the buffer is released once |
| Compiler.Compiler.SetScalarConstant | spirv_cross/src/compiler.rs:350-363 | one command carrying the high and low halves of the value |
| Compiler.Compiler.ReleaseType | spirv_cross/src/compiler.rs:380-390 | frees member types (if any), then dimensions (if any), then the record |
| Compiler.Compiler.GetType | spirv_cross/src/compiler.rs:365-394 | the type the record describes; the frees in `get_type`'s order; afterwards only the literal-flags buffer is added to the heap |
| Compiler.Compiler.GetMemberName | spirv_cross/src/compiler.rs:396-409 | the string query for `get_member_name` |
| Compiler.Compiler.GetMemberDecoration | spirv_cross/src/compiler.rs:411-428 | one command, its word or its error |
| Compiler.Compiler.SetMemberDecoration | spirv_cross/src/compiler.rs:430-448 | one command and its status |
| Compiler.Compiler.GetDeclaredStructSize | spirv_cross/src/compiler.rs:450-460 | one command, its word or its error |
| Compiler.Compiler.GetDeclaredStructMemberSize | spirv_cross/src/compiler.rs:462-473 | one command, its word or its error |
| Compiler.Compiler.FillCategory | spirv_cross/src/compiler.rs:484-505 | one `fill_resources` call: the resources of one category and the frees of its names and array |
| Compiler.Compiler.FillBuiltIn | spirv_cross/src/compiler.rs:507-532 | one `fill_builtin_resources` call |
| Compiler.Compiler.FillPlain | spirv_cross/src/compiler.rs:534-547 | the thirteen plain categories in order, stopping at the first failure; the frees of the categories filled |
| Compiler.Compiler.FillAll | spirv_cross/src/compiler.rs:534-567 | the value of all fifteen categories, with the frees in category order up to the first failure |
| Compiler.Compiler.GetShaderResources | spirv_cross/src/compiler.rs:475-569 | the fifteen categories in order; the first failing one gives the error and later ones are not touched; on every path past a successful native call the heap is the reply's memory minus exactly the frees issued, so a full read leaves the heap as before |
| Compiler.Compiler.GetActiveInterfaceVariables | spirv_cross/src/compiler.rs:571-587 | the set of the answered ids, duplicates collapsed; the buffer is released once |
| Compiler.Compiler.RenameInterfaceVariable | spirv_cross/src/compiler.rs:589-628 | any name holding NUL gives `Unhandled` with no call; otherwise one command with the records in input order and the count |
| Compiler.Compiler.GetWorkGroupSizeSpecializationConstants | spirv_cross/src/compiler.rs:630-666 | the three answered constants as x, y and z; the buffer is released once |
| Compiler.Compiler.Drop | spirv_cross/src/compiler.rs:669-675 | one delete command; the instance is gone and nothing else changes |
| Ordered.Ascending | spirv_cross/src/msl.rs:326-340 | the keys of a map in strictly ascending order, each exactly once |
| Ordered.TableContents | spirv_cross/src/msl.rs:326-340 | a flattened map has one record per entry, made from that entry, with keys strictly ascending |
| Ordered.Flatten | spirv_cross/src/msl.rs:326-340 | the collected `iter().map(..)` of a map is its ascending table |
| Msl.VertexAttributeOrder | spirv_cross/src/msl.rs:24-25 | the derived order on locations is a strict total order |
| Msl.ResourceBindingOrder | spirv_cross/src/msl.rs:43-48 | the lexicographic order on (stage, descriptor set, binding) is a strict total order |
| Msl.SamplerOrder | spirv_cross/src/msl.rs:61-65 | the lexicographic order on (descriptor set, binding) is a strict total order |
| Msl.LodBounds | spirv_cross/src/msl.rs:74-81 | `ZERO` is 0, `MAX` is 255, and every value lies between them |
| Msl.ResourceBindingRecord | spirv_cross/src/msl.rs:326-340 | the native binding carries the location as its key and copies base type, buffer, texture, sampler and count |
| Msl.VertexAttributeRecord | spirv_cross/src/msl.rs:342-354 | the native attribute has the location, component 0, the format, rate and vector size, and the encoded built-in |
| Msl.VertexAttributeBuiltIn | spirv_cross/src/msl.rs:342-354 | the native built-in is `Max` iff none was given, and otherwise decodes to the given one |
| Msl.ConstexprSampler | spirv_cross/src/msl.rs:356-393 | `compare_enable` iff the function is not `Always`; `lod_clamp_enable` iff the clamps differ from `ZERO`/`MAX`; `anisotropy_enable` iff the anisotropy is not 0; the LOD clamps in sixteenths; every other setting (coordinates, filters, addresses, border colour, compare function, anisotropy, bpc, chroma filter, planes, resolution, swizzle, chroma offsets, ycbcr fields) copied unchanged |
| Msl.ConstexprSamplerFlagsOff | spirv_cross/src/msl.rs:377-380 | with `Always`, the full LOD range and no anisotropy, all three flags are off |
| Msl.ConstSamplerRecord | spirv_cross/src/msl.rs:356-393 | the mapping is keyed by the location and holds the sampler built from the data |
| Msl.Platform.AsRaw | spirv_cross/src/msl.rs:133-136 | the discriminant is at most 1, and 0 exactly for iOS |
| Msl.PlatformAsRawInjective | spirv_cross/src/msl.rs:133-136 | two platforms have the same discriminant iff they are the same platform |
| Msl.Version.AsRaw | spirv_cross/src/msl.rs:151-164 | `10000 * major + 100 * minor` |
| Msl.VersionAsRawMonotone | spirv_cross/src/msl.rs:141-164 | the raw value is strictly increasing in declaration order, hence injective |
| Msl.DefaultOptions | spirv_cross/src/msl.rs:225-253 | buffer indices 30 down to 25, pairwise distinct; macOS 1.2; point size and rasterization on; every other flag off; empty maps; no entry point |
| Msl.RawOptions | spirv_cross/src/msl.rs:297-318 | `disable_rasterization` iff rasterization is not enabled; version and platform encoded; buffer indices, vertex flags and every other boolean switch (point size, output capture, texture swizzle, tessellation origin, argument buffers, fragment padding, native arrays, zero initialisation, active argument-buffer resources) copied unchanged |
| Msl.RawOptionsRasterization | spirv_cross/src/msl.rs:303 | toggling `enable_rasterization` toggles only the native `disable_rasterization` |
| Msl.ResourceBindingTableContents | spirv_cross/src/msl.rs:326-340 | one native binding per override, ordered by (stage, set, binding), each made from its entry |
| Msl.VertexAttributeTableContents | spirv_cross/src/msl.rs:342-354 | one native attribute per override, ordered by location, each with component 0 |
| Msl.ConstSamplerTableContents | spirv_cross/src/msl.rs:356-393 | one mapping per constant sampler, ordered by (set, binding) |
| Msl.ArgumentBufferBindingValue | spirv_cross/src/msl.rs:457 | `ARGUMENT_BUFFER_BINDING` is `!3`, that is 0xFFFF_FFFC, the largest 32-bit multiple of four |
| Msl.TargetData.constructor | spirv_cross/src/msl.rs:268-272 | all three tables empty |
| Msl.TargetData.Refill | spirv_cross/src/msl.rs:326-393 | each table cleared and refilled with exactly the ascending table of its map |
| Ast.Ast.Parse | spirv_cross/src/msl.rs:255-279 | on success: a fresh live instance over the module's words, three empty tables, not compiled |
| Ast.Ast.SetCompilerOptions | spirv_cross/src/msl.rs:285-396 | an unencodable entry-point name gives `Unhandled` with no call; otherwise entry point then options, stopping at the first failure; tables rewritten only on success, to the ascending tables of the options' maps |
| Ast.Ast.CompileInternal | spirv_cross/src/msl.rs:405-430 | the string query of the compile command carrying the three stored tables with their lengths |
| Ast.Ast.Compile | spirv_cross/src/spirv.rs:755-758 | the compiled flag is set whatever the outcome; then `compile_internal` |
| Ast.CompileCarriesOptions | spirv_cross/src/msl.rs:405-417 | after `set_compiler_options(o)`, compile passes one record per override of `o`; vertex records have component 0 and keys in the map |
| Ast.Ast.GetCleansedEntryPointName | spirv_cross/src/spirv.rs:638-651 | before `compile`: the compilation error, with no native call; afterwards the compiler's query |
| Ast.Ast.IsRasterizationEnabled | spirv_cross/src/msl.rs:432-441 | the negation of the native disabled flag, or the error |
| Ast.Ast.GetAutomaticMslResourceBinding | spirv_cross/src/msl.rs:443-453 | one command, its word or its error |
| Ast.Ast.GetDecoration | spirv_cross/src/spirv.rs:598-600 | the compiler's contract; compiled flag unchanged |
| Ast.Ast.GetName | spirv_cross/src/spirv.rs:603-605 | the compiler's contract; compiled flag unchanged |
| Ast.Ast.SetName | spirv_cross/src/spirv.rs:608-610 | the compiler's contract; compiled flag unchanged |
| Ast.Ast.SetMemberName | spirv_cross/src/spirv.rs:613-615 | the compiler's contract; compiled flag unchanged |
| Ast.Ast.UnsetDecoration | spirv_cross/src/spirv.rs:618-620 | the compiler's contract; compiled flag unchanged |
| Ast.Ast.SetDecoration | spirv_cross/src/spirv.rs:623-630 | the compiler's contract; compiled flag unchanged |
| Ast.Ast.GetEntryPoints | spirv_cross/src/spirv.rs:633-635 | the compiler's contract; compiled flag unchanged |
| Ast.Ast.GetActiveBufferRanges | spirv_cross/src/spirv.rs:654-656 | the compiler's contract; compiled flag unchanged |
| Ast.Ast.GetSpecializationConstants | spirv_cross/src/spirv.rs:659-661 | the compiler's contract; compiled flag unchanged |
| Ast.Ast.SetScalarConstant | spirv_cross/src/spirv.rs:666-668 | the compiler's contract; compiled flag unchanged |
| Ast.Ast.GetShaderResources | spirv_cross/src/spirv.rs:671-673 | the compiler's contract, including the heap on the error paths; compiled flag unchanged |
| Ast.Ast.GetType | spirv_cross/src/spirv.rs:676-678 | the compiler's contract; compiled flag unchanged |
| Ast.Ast.GetMemberName | spirv_cross/src/spirv.rs:681-683 | the compiler's contract; compiled flag unchanged |
| Ast.Ast.GetMemberDecoration | spirv_cross/src/spirv.rs:686-693 | the compiler's contract; compiled flag unchanged |
| Ast.Ast.SetMemberDecoration | spirv_cross/src/spirv.rs:696-705 | the compiler's contract; compiled flag unchanged |
| Ast.Ast.GetDeclaredStructSize | spirv_cross/src/spirv.rs:708-710 | the compiler's contract; compiled flag unchanged |
| Ast.Ast.GetDeclaredStructMemberSize | spirv_cross/src/spirv.rs:713-715 | the compiler's contract; compiled flag unchanged |
| Ast.Ast.RenameInterfaceVariable | spirv_cross/src/spirv.rs:718-726 | the compiler's contract; compiled flag unchanged |
| Ast.Ast.GetActiveInterfaceVariables | spirv_cross/src/spirv.rs:729-732 | the compiler's contract; compiled flag unchanged |
| Ast.Ast.GetWorkGroupSizeSpecializationConstants | spirv_cross/src/spirv.rs:735-739 | the compiler's contract; compiled flag unchanged |
| RenameEnums.LowerTags | bindings_generator/src/main.rs:40-44 | the replacement keeps the length of the remainder |
| RenameEnums.LowerTagsPointwise | bindings_generator/src/main.rs:19 | the scan lowercases exactly the letters inside a match of the pattern (a tag letter right after a digit, or the `I` of `UI` right after a digit) and keeps every other character |
| RenameEnums.EnumVariantName | bindings_generator/src/main.rs:31-49 | renamed iff there is an enum name, the Pascal-cased variant starts with it, and the remainder is non-empty and does not start with a digit; the result has the remainder's length |
| RenameEnums.EnumVariantNameContents | bindings_generator/src/main.rs:37-44 | a renamed variant is the remainder with exactly its tagged letters lowercased |
| RenameEnums.EnumVariantBehavior | bindings_generator/src/main.rs:51-60 | `Hide` iff the name ends in `max` in any case and is not `BuiltInMax`; otherwise no custom behaviour |

## Left out

- Native engine: the `sc_internal_*` entry points, `read_from_ptr`, `read_into_vec_from_ptr`, `read_string_from_ptr` and the `check!` macro are not part of this model. They become the abstract `Native.Engine`, whose answers are arbitrary within the guarantees listed in the next line. Its status is `Success` or `Failure` with an error code. A string it returns is text or "not valid UTF-8".
- Native.Engine: the engine's answers are assumed to keep five guarantees the Rust code relies on without checking them. (1) No built-in resource from `sc_internal_compiler_get_shader_resources` is `Max`; a `Max` would reach the `unreachable!("invalid builtin")` panic of `BuiltIn::from_raw` (spirv_cross/src/spirv.rs:234) through compiler.rs:517, and that panic path is not modelled. (2) The work-group-size reply holds exactly three constants, since compiler.rs:643-645 reads three entries without checking the count. (3) Every name block and array the engine hands out is a fresh allocation, distinct from every other live one. (4) An array reply is a live allocation even when it has no elements, so freeing it is always defined. (5) In an `ScType` reply the member-types block is allocated exactly when `member_types_size` is non-zero, and the dimension and literal blocks exactly when `array_size` is non-zero; `get_type` frees those parts only under the same tests (compiler.rs:380-388), so the heap equations of `Compiler.Compiler.GetType` and `Compiler.TypeFreesLeaveLiteral` rest on it.
- `free_pointer` is modelled as always succeeding. The `check!` around each free therefore never returns early in the model.
- No-leak claims on error paths are stated as the code behaves. A name that fails to read is not released. Categories after a failing one in `get_shader_resources` are never released. A shader string that is not valid UTF-8 is not released. The contracts say exactly which allocations stay live.
- Compiler.Compiler.GetType: the `array_size_literal` buffer is never released by `get_type`. The contract states that it stays live.
- Floating point: `From<f32> for LodBase16` and `From<LodBase16> for f32`, and the `f32` values handed to the native sampler. `LodBase16` is kept as its byte of sixteenths, so the native sampler record holds the byte in place of the float.
- The GLSL and HLSL targets, including `Compiler::compile` behind their feature flags, and the target-marker and `PhantomData` plumbing. Only the MSL target is modelled.
- Generated enumerations (`ExecutionModel`, `Decoration`, `Dim`, `ImageFormat` and the sampler enumerations) are opaque tags. `ExecutionModel` is ordered by its position, as the derived order on the generated enumeration does.
- The Pascal-case conversion of `convert_case` is a function parameter of `RenameEnums.EnumVariantName`.
- RenameEnums.LowerTags: `\d` is taken to mean an ASCII digit. The regex engine's Unicode digits are not distinguished, since enum names are C identifiers.
- The bindings generator's `main` (running bindgen and writing files), `build.rs`, and the example program are not part of this model.
- Ast.Ast.Parse: on failure the contract says only that no handle is returned. The native status is not exposed.
- The sampler fields are copied as they are. The swizzle is the subset type `Native.Swizzle` of exactly four tags, matching `[ComponentSwizzle; 4]`.
