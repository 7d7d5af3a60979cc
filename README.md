# PathosEngine core logic in Dafny

This project models the sequential, integer- and string-based parts of the
PathosEngine OpenGL engine and of its GL prototype generator, and proves
properties of the model. It has one Dafny module per engine source file.
Code that changes state in place becomes a `class` with `modifies` clauses,
proved against specification functions. Pure code becomes functions and lemmas.

- **GL prototype generator** (`GlPrototypes`, `tools/parse_glcorearb.rs`).
  The marker-region scan of `glcorearb.h` and `parse_api`, which takes a
  prototype apart into return type, native and wrapper names, parameters and
  parameter names. Also the text emitters for packet structs, the packet
  union and the recording functions.
- **Allocators.**
  - `Malloc` is the tree-based range allocator `MallocEmulator`. Its range
    tree satisfies the `debugTopology` invariants, and `allocate`,
    `deallocate`, `merge` and `cleanup` are modelled.
  - `MemAlloc` is the free-list `PoolAllocator` and the ring
    `CircularAllocator`.
  - `IrradianceTiles` is the first-fit tile allocator of the irradiance atlas
    and its texel offsets.
- **Material shaders.**
  - `MaterialAssembler` covers placeholder scanning, shading model parsing,
    uniform-block packing, newline splitting and the hot-reload checks.
  - `MaterialTemplates` is the `MaterialTemplate` source-line editor.
  - `ShaderSources` covers the vertex, fragment and geometry source builders:
    declaration with dedup and type conflicts, `clear`, and `getCode`.
- **Input.**
  - `InputConstants` is the ASCII table and the key classes.
  - `InputManagers` covers bindings, key-down edge detection, modifier flags
    and axis values.
  - `XInput` covers gamepad button-mask diffing and the per-user queries.
- **Text and console.**
  - `FontCache` is the glyph cell cache.
  - `Console` covers the console window's input line, line window and command
    evaluation, and the case-insensitive cvar lookup.
  - `Engines` covers exec registration and dispatch, and the GLUT key map.
- **RHI.**
  - `RenderCommandLists` covers command recording, execution, hooks, flush and
    deferred cleanup.
  - `GpuCounters` is the GPU timer query pool.
  - `LiveObjects` covers GL object id tracking and the internal-format byte
    table.
  - `RenderTargets` covers the render target formats, the respec guards, mip
    counts and views.
- **Meshes and scene.**
  - `GeometryPrimitives` covers vertex attribute flags and the plane, cube
    and sphere index buffers.
  - `SkyPanorama` covers icosahedron subdivision and the panorama sky's dirty
    flag.
  - `SceneProxies` covers the proxy partition and sort order.
  - `IrradianceVolumes` covers the probe update phase machine and probe
    coordinates.
  - `MeshMaterials` covers material passes, lights and light buffers.
- **Game options** (`GameOptions`, `projects/Test_RacingGame`). The choice
  controls, menu navigation and the apply guard.

Several modules are shared:
- `Wrappers` holds `Option`.
- `StringUtil` holds splitting, joining, trimming, search and decimal
  printing.
- `Sorting` holds sortedness and permutation for the source's `std::sort`
  calls.
- `Vectors` holds integer triples.
- `Sequences` holds the generic first-match search, filter and element-wise map.

Source paths below are relative to the repository root.

## Model

| member | source | states |
|---|---|---|
| GlPrototypes.FlagAfterIff | tools/parse_glcorearb.rs:48-58 | After a prefix of the header, the scan is inside an API region iff some earlier line is the begin marker and no end-marker line follows it. |
| GlPrototypes.EndMarkerNeverParsed | tools/parse_glcorearb.rs:55-58 | An end-marker line is never handed to `parse_api`. |
| GlPrototypes.OpeningMarkerNotParsed | tools/parse_glcorearb.rs:51-54 | A begin-marker line met outside a region starts a region and is not itself parsed. |
| GlPrototypes.ApiLinesConcat | tools/parse_glcorearb.rs:48-70 | Regions are accepted in sequence: for input a + b, where a ends outside a region, the parsed lines are those of a followed by those of b. |
| GlPrototypes.ApiLinesPrefix | tools/parse_glcorearb.rs:49-69 | Parsed lines keep input order: the lines parsed from a prefix of the header are a prefix of those parsed from the whole header. |
| GlPrototypes.ParamName | tools/parse_glcorearb.rs:219-225 | The name of a parameter that contains a space is its longest suffix with no space and no '*': a proper suffix free of both, preceded by a space or a '*'. |
| GlPrototypes.ParamNames | tools/parse_glcorearb.rs:216-229 | At most one name per parameter; a parameter without a space (`void`) adds none. |
| GlPrototypes.NamedParams | tools/parse_glcorearb.rs:220-227 | The parameters kept are exactly those that contain a space. |
| GlPrototypes.ParamNamesOrder | tools/parse_glcorearb.rs:216-229 | The name list has one entry per parameter that contains a space, in parameter order, and entry i is the declared name of the i-th such parameter. |
| GlPrototypes.ParamNamesSpec | tools/parse_glcorearb.rs:216-229 | No parameter name contains a space or a '*'. |
| GlPrototypes.ReturnTypeFromTokens | tools/parse_glcorearb.rs:189-196 | The return type is the second space-separated token, with "*" appended iff the third token contains '*'. |
| GlPrototypes.NativeName | tools/parse_glcorearb.rs:198-205 | The native name runs from the first "gl" to one character before the first '('. |
| GlPrototypes.WrapperName | tools/parse_glcorearb.rs:206-209 | The wrapper name is the native name without "gl", with its first character in lower case (upper-casing it gives the native name back). |
| GlPrototypes.ParamsBetweenParens | tools/parse_glcorearb.rs:211-218 | The parameters are the trimmed pieces of the comma-split text between the parentheses; the pieces hold no comma and rejoin to that text. |
| GlPrototypes.ParamsTrimmed | tools/parse_glcorearb.rs:216-218 | One parameter per piece, in order, none with leading or trailing whitespace; names are free of spaces and '*'. |
| GlPrototypes.CollectAll | tools/parse_glcorearb.rs:59-67 | A parser mapped over the region lines: when every line parses, there is one record per line. |
| GlPrototypes.ParseAllSpec | tools/parse_glcorearb.rs:59-67 | When every line parses there is one record per line, and record i is `parse_api` of line i; the run fails (an `unwrap` panics) iff some line does not parse. |
| GlPrototypes.ParseFailsAt | tools/parse_glcorearb.rs:59-67 | A line inside a region that `parse_api` cannot parse makes the whole run fail. |
| GlPrototypes.ParseHeader | tools/parse_glcorearb.rs:44-70 | The scan loop returns exactly the records of the lines strictly inside marker regions, in input order. |
| GlPrototypes.FieldLinesSpec | tools/parse_glcorearb.rs:83-90 | The packet struct has a field line "\t<param>;" for exactly the parameters that are not "void". |
| GlPrototypes.CommaLines | tools/parse_glcorearb.rs:92-101 | One line per item, the item directly behind the indent, and a comma after every item except the last; the `fn_args` loop at lines 144-150 uses the same shape. |
| GlPrototypes.AssignLines | tools/parse_glcorearb.rs:152-155 | One assignment line per parameter name. |
| GlPrototypes.UnionLines | tools/parse_glcorearb.rs:120-123 | One union member per record. |
| GlPrototypes.EmitVarDecls | tools/parse_glcorearb.rs:82-90 | The loop writes exactly the field lines, each followed by a newline. |
| GlPrototypes.EmitCallArguments | tools/parse_glcorearb.rs:92-101 | The loop writes "params->name" for each name in order, comma-separated and newline-terminated. |
| GlPrototypes.EmitFnArgs | tools/parse_glcorearb.rs:144-150 | The loop writes the tab-indented parameters in order, joined by ",\n". |
| GlPrototypes.EmitAssignArgs | tools/parse_glcorearb.rs:152-155 | The loop writes one "packet->n = n;" line per name, in order. |
| GlPrototypes.EmitUnionMembers | tools/parse_glcorearb.rs:120-123 | The loop writes the union member lines in record order. |
| GlPrototypes.PacketFields | tools/parse_glcorearb.rs:83-101 | Splitting the emitted field text (and the argument text) at newlines gives back exactly its lines, in order. |
| GlPrototypes.UnionMembersInOrder | tools/parse_glcorearb.rs:120-123 | Line i of the union member text is "\tRenderCommand_f f;" for the wrapper name f of record i. |
| GlPrototypes.EmitRenderPackets | tools/parse_glcorearb.rs:80-132 | render_commands.generated.h is the packet structs of all records in order, then the union. |
| GlPrototypes.EmitCommandList | tools/parse_glcorearb.rs:141-172 | render_command_list.generated.h is the record functions of all records in order. |
| Malloc.LeavesInRange | projects/PathosEngine/src/pathos/util/malloc_emulator.cpp:88-105 | In a tree that passes the debug topology walk, every allocation and every free leaf lies inside the root's range, and allocations are non-empty. |
| Malloc.AtInRange | projects/PathosEngine/src/pathos/util/malloc_emulator.cpp:96-101 | Every node of such a tree passes the walk itself and lies inside its parent's range. |
| Malloc.FreeLeafDisjoint | projects/PathosEngine/src/pathos/util/malloc_emulator.cpp:30-36 | A free leaf overlaps no allocation. |
| Malloc.FirstFit | projects/PathosEngine/src/pathos/util/malloc_emulator.cpp:25-39 | The search's candidate is a free leaf of at least the requested size. |
| Malloc.FirstFitLeftmost | projects/PathosEngine/src/pathos/util/malloc_emulator.cpp:25-40 | The search fails (the CHECKF at line 40) iff no free leaf is large enough; otherwise it finds the lowest-offset leaf that is. |
| Malloc.NoFitInSmall | projects/PathosEngine/src/pathos/util/malloc_emulator.cpp:30-33 | A resident subtree, or one smaller than the request, holds no fit, so the search loses nothing by not pushing it. |
| Malloc.FindFreeLeaf | projects/PathosEngine/src/pathos/util/malloc_emulator.cpp:25-39 | The explicit-stack search (pop the last, push right then left) returns exactly the leftmost fit. |
| Malloc.AllocSpec | projects/PathosEngine/src/pathos/util/malloc_emulator.cpp:22-57 | Allocation fails iff no free leaf is large enough. Otherwise the new tree passes the walk over the same root range, and its allocations are the old ones plus (offset, bytes). The new block lies in range, overlaps no earlier allocation, and no large-enough free leaf lies to its left. |
| Malloc.AllocCount | projects/PathosEngine/src/pathos/util/malloc_emulator.cpp:42-54 | numAllocations grows by two when the leaf is split and is unchanged on an exact fit. |
| Malloc.MergeLeftKeepsAllocations | projects/PathosEngine/src/pathos/util/malloc_emulator.cpp:115-141 | Corrected merge, which joins free leaves only: merging a freed left child with its free neighbour leaves the set of allocations unchanged. |
| Malloc.MergeRightKeepsAllocations | projects/PathosEngine/src/pathos/util/malloc_emulator.cpp:142-168 | Corrected merge, which joins free leaves only: merging a freed right child with its free neighbour leaves the set of allocations unchanged. |
| Malloc.Free | projects/PathosEngine/src/pathos/util/malloc_emulator.cpp:59-86 | Corrected deallocate (lookup by range, merges with free leaves only): freeing keeps the topology and the root range, and never adds nodes. |
| Malloc.FreeSpec | projects/PathosEngine/src/pathos/util/malloc_emulator.cpp:59-86 | Corrected deallocate: deallocation succeeds iff an allocation starts at the offset and it is not the root itself (the CHECK at line 77). The allocations afterwards are exactly the others. |
| Malloc.Lookup | projects/PathosEngine/src/pathos/util/malloc_emulator.cpp:60-75 | The corrected lookup's path leads to a resident leaf at the offset. |
| Malloc.LookupComplete | projects/PathosEngine/src/pathos/util/malloc_emulator.cpp:60-75 | The corrected lookup finds an allocation iff one starts at the offset. |
| Malloc.LookupAsWrittenMissesAllocation | projects/PathosEngine/src/pathos/util/malloc_emulator.cpp:62-75 | Finding: in a well-formed tree with an allocation at offset 5, the lookup as written finds nothing, while the corrected lookup finds it. |
| Malloc.LostAllocationTreeReachable | projects/PathosEngine/src/pathos/util/malloc_emulator.cpp:15-86 | That tree is reached from a fresh 100-byte emulator by allocate 10, allocate 10, deallocate 0, allocate 5, allocate 5. |
| Malloc.MergeAsWrittenBreaksTopology | projects/PathosEngine/src/pathos/util/malloc_emulator.cpp:116-128 | Finding: merging a freed left leaf into a split right sibling as written leaves a tree that fails the topology walk; the corrected merge keeps the topology. |
| Malloc.StretchTreeReachable | projects/PathosEngine/src/pathos/util/malloc_emulator.cpp:15-86 | A tree whose left half holds a split with a free right part is reached from a fresh 100-byte emulator by allocate 30, allocate 70, deallocate 0, allocate 10, allocate 10. |
| Malloc.MergeRightAsWrittenBreaksTopology | projects/PathosEngine/src/pathos/util/malloc_emulator.cpp:142-155 | Finding: in that tree, deallocate(30) as written finds the resident leaf [30, 70) and merges it into the split [10, 30) of the left sibling, which stretches to 90 bytes over 20 bytes of children and fails the topology walk; the corrected merge keeps the topology and only that allocation is freed. |
| Malloc.MallocEmulator.Initialize | projects/PathosEngine/src/pathos/util/malloc_emulator.cpp:15-20 | CHECK root is null; afterwards the root is one free leaf over [0, totalBytes), with remainingBytes = totalBytes and numAllocations = 1. |
| Malloc.MallocEmulator.Allocate | projects/PathosEngine/src/pathos/util/malloc_emulator.cpp:22-57 | CHECK bytes > 0. None when no leaf fits; otherwise returns the offset of the leftmost fit and carves it as Alloc describes. |
| Malloc.MallocEmulator.Deallocate | projects/PathosEngine/src/pathos/util/malloc_emulator.cpp:59-86 | Corrected deallocate: false, with nothing changed, when no allocation starts at the offset. Otherwise the tree becomes Free of the old tree, merges included. |
| Malloc.MallocEmulator.Cleanup | projects/PathosEngine/src/pathos/util/malloc_emulator.cpp:172-185 | The whole tree is dropped. |
| MemAlloc.InitialFreeList | projects/PathosEngine/src/badger/system/mem_alloc.h:47-61 | The constructor's free list has one entry per slot. |
| MemAlloc.InitialFreeListSpec | projects/PathosEngine/src/badger/system/mem_alloc.h:47-61 | The initial free list holds every slot below maxElements exactly once, highest first: each slot is pushed in turn on the head. |
| MemAlloc.PoolAllocator.constructor | projects/PathosEngine/src/badger/system/mem_alloc.h:47-61 | The free list is the initial one. |
| MemAlloc.PoolAllocator.Alloc | projects/PathosEngine/src/badger/system/mem_alloc.h:67-76 | Null (None) when the free list is empty, with nothing changed; otherwise the head slot, which leaves the list. |
| MemAlloc.PoolAllocator.Dealloc | projects/PathosEngine/src/badger/system/mem_alloc.h:78-83 | The freed slot becomes the new head of the free list. |
| MemAlloc.PoolLifo | projects/PathosEngine/src/badger/system/mem_alloc.h:67-83 | The pool is last-in first-out: alloc right after dealloc returns the same slot and restores the free list. |
| MemAlloc.PoolDrain | projects/PathosEngine/src/badger/system/mem_alloc.h:47-76 | A fresh pool of n slots serves exactly n allocations, highest slot first, and then returns null. |
| MemAlloc.CircularAllocator.constructor | projects/PathosEngine/src/badger/system/mem_alloc.h:99-106 | CHECK maxElements > 0; the ring starts empty with head = tail = 0. |
| MemAlloc.CircularAllocator.Alloc | projects/PathosEngine/src/badger/system/mem_alloc.h:120-144 | Hands out slot head. The new element joins the live elements, oldest first; once the ring is full, the oldest element is dropped. |
| MemAlloc.CircularAllocator.NumElements | projects/PathosEngine/src/badger/system/mem_alloc.h:146-153 | The count is the number of live elements, never more than maxCount. |
| MemAlloc.CircularAllocator.GetElementAsWritten | projects/PathosEngine/src/badger/system/mem_alloc.h:155-161 | As written, getElement(ix) is slot (head + ix) mod maxCount. |
| MemAlloc.CircularAllocator.GetElement | projects/PathosEngine/src/badger/system/mem_alloc.h:155-161 | Corrected: getElement(ix) is the slot of the ix-th oldest live element. |
| MemAlloc.RingFirstElementAsWritten | projects/PathosEngine/src/badger/system/mem_alloc.h:120-161 | Finding: in a ring of 3 after one allocation, the element is in slot 0 but getElement(0) as written returns slot 1. |
| MemAlloc.RingFirstElement | projects/PathosEngine/src/badger/system/mem_alloc.h:120-161 | The corrected getElement(0) returns the element's own slot. |
| IrradianceTiles.ScanFrom | projects/PathosEngine/src/pathos/render/image_based_lighting.cpp:63-73 | The scan's candidate start never moves backwards. |
| IrradianceTiles.RemoveSpec | projects/PathosEngine/src/pathos/render/image_based_lighting.cpp:99-106 | Erasing a present range shortens the list by one; an absent range leaves it unchanged. |
| IrradianceTiles.RemoveMultiset | projects/PathosEngine/src/pathos/render/image_based_lighting.cpp:99-106 | Erasing takes exactly one copy of the range out of the recorded ranges. |
| IrradianceTiles.AllocateAsWrittenSharesTile | projects/PathosEngine/src/pathos/render/image_based_lighting.cpp:56-106 | Finding: as written, allocate 2, allocate 2, free the first run, then allocate 1 twice. Both single-tile allocations are given tile 0, because the appended ranges leave the list out of tile order. |
| IrradianceTiles.LightProbeScene.AllocateTiles | projects/PathosEngine/src/pathos/render/image_based_lighting.cpp:56-97 | Corrected: with no atlas the result is INVALID (None) and nothing changes. A failure with an atlas means no free run of n tiles fits in the atlas. On success the lowest free run is chosen, ends inside the atlas, is recorded, and the list stays sorted and disjoint. |
| IrradianceTiles.LightProbeScene.FreeTiles | projects/PathosEngine/src/pathos/render/image_based_lighting.cpp:99-106 | Accepts any list of ranges, in any order. Returns true exactly when the range was recorded, erases the first equal range, and keeps a sorted, disjoint list sorted and disjoint. |
| IrradianceTiles.LightProbeScene.AllocateTilesAsWritten | projects/PathosEngine/src/pathos/render/image_based_lighting.cpp:56-97 | As written, on any list of ranges: with no atlas the result is INVALID (None) and nothing changes. Otherwise the scan of the list in stored order gives a candidate start; a run that does not fit fails with nothing changed, and a run that fits is appended at the end (push_back) and its start returned. |
| IrradianceTiles.AllocateAsWrittenAppends | projects/PathosEngine/src/pathos/render/image_based_lighting.cpp:56-97 | An as-written allocation fails exactly when the scanned run would end past the atlas; when it succeeds, the list grows by exactly the new range, at its end. |
| IrradianceTiles.AllocateAsWrittenThenRemove | projects/PathosEngine/src/pathos/render/image_based_lighting.cpp:56-106 | Freeing the range an as-written allocation has just appended finds that range and leaves the ranges held before, as a multiset. |
| IrradianceTiles.FirstFreeRun | projects/PathosEngine/src/pathos/render/image_based_lighting.cpp:63-73 | On a list in tile order, the scan finds the lowest start of n free tiles and the position where the new range belongs. |
| IrradianceTiles.InsertSorted | projects/PathosEngine/src/pathos/render/image_based_lighting.cpp:74-75 | Inserting the new range at that position keeps the list sorted and disjoint and adds exactly that range. |
| IrradianceTiles.SortedDisjointRemove | projects/PathosEngine/src/pathos/render/image_based_lighting.cpp:99-106 | Erasing any range keeps the list sorted and disjoint. |
| IrradianceTiles.TexelOffsetInverse | projects/PathosEngine/src/pathos/render/image_based_lighting.cpp:108-112 | Texel offsets start at 1 inside the border, and the tile ID can be recovered from them, so distinct tiles get distinct texel origins. |
| MaterialAssembler.MakeConstantParameterDesc | projects/PathosEngine/src/pathos/material/material_shader_assembler.cpp:78-102 | A description exists exactly for the sixteen GLSL scalar and vector type names. Its numElements is 1 to 4 and its kind is the type's scalar family. Any other name hits CHECK_NO_ENTRY (None). |
| MaterialAssembler.ClassifyTypeName | projects/PathosEngine/src/pathos/material/material_shader_assembler.cpp:80-101 | Each of the sixteen type names classifies back to its own element count and scalar kind. |
| MaterialAssembler.FirstKeyword | projects/PathosEngine/src/pathos/material/material_shader_assembler.cpp:171-185 | A recognised keyword is one of those tested, and the line starts with it. |
| MaterialAssembler.LineKeywords | projects/PathosEngine/src/pathos/material/material_shader_assembler.cpp:169-186 | One keyword slot per material line. |
| MaterialAssembler.ScanPlaceholders | projects/PathosEngine/src/pathos/material/material_shader_assembler.cpp:167-199 | The loop computes the scan of all lines, and returns it exactly when the closing well-definedness CHECK holds. |
| MaterialAssembler.ScanIndexSpec | projects/PathosEngine/src/pathos/material/material_shader_assembler.cpp:171-185 | Each line index stays -1 when no line has its marker. Otherwise it comes from the LAST such line: the line itself for SHADINGMODEL, one more for BEGIN markers, one less for END markers. |
| MaterialAssembler.ScanFlagSpec | projects/PathosEngine/src/pathos/material/material_shader_assembler.cpp:172-177 | A flag (NONTRIVIALDEPTH, OUTPUTWORLDNORMAL, ...) is set exactly when some line starts with its keyword. |
| MaterialAssembler.ScanSeparates | projects/PathosEngine/src/pathos/material/material_shader_assembler.cpp:171-185 | The scan records line indices only for index markers and flags only for flag keywords. |
| MaterialAssembler.ShadingModelWord | projects/PathosEngine/src/pathos/material/material_shader_assembler.cpp:204-206 | The scanned word after the shading-model keyword is non-empty and fits the 64-byte buffer. |
| MaterialAssembler.ParseShadingModel | projects/PathosEngine/src/pathos/material/material_shader_assembler.cpp:201-221 | The shading model is the one whose MATERIAL_SHADINGMODEL_* name is the word. Any other word fails the CHECKF (None). |
| MaterialAssembler.WordRoundTrip | projects/PathosEngine/src/pathos/material/material_shader_assembler.cpp:204-206 | The %s scan reads back exactly a space-free word written after the keyword. |
| MaterialAssembler.ShadingModelRoundTrip | projects/PathosEngine/src/pathos/material/material_shader_assembler.cpp:201-221 | Writing "#define SHADINGMODEL" and a model's name parses back to that model. |
| MaterialAssembler.MoreElementsPreorder | projects/PathosEngine/src/pathos/material/material_shader_assembler.cpp:232-236 | The "more elements first" comparator gives a total preorder, so the sort is well defined. |
| MaterialAssembler.Layout | projects/PathosEngine/src/pathos/material/material_shader_assembler.cpp:244-254 | One constant parameter per description. |
| MaterialAssembler.LayoutSpec | projects/PathosEngine/src/pathos/material/material_shader_assembler.cpp:248-254 | Parameter i carries description i's name, kind and element count. Its offset is the running byte offset of the descriptions before it. |
| MaterialAssembler.EmitMembers | projects/PathosEngine/src/pathos/material/material_shader_assembler.cpp:244-280 | The member loop produces exactly the specified member text, padding count, scalar count, element total and parameter list. |
| MaterialAssembler.AssembleUniformBuffer | projects/PathosEngine/src/pathos/material/material_shader_assembler.cpp:223-308 | The descriptions are sorted (a permutation, non-increasing numElements). With none, the block text is empty and the total 0. Otherwise the block is header, members, tail padding and footer, the total counts elements plus padding, and each parameter's offset is its running offset. |
| MaterialAssembler.BytesAreElements | projects/PathosEngine/src/pathos/material/material_shader_assembler.cpp:256-278 | The running byte offset is always four times the elements used. |
| MaterialAssembler.VectorOffsets | projects/PathosEngine/src/pathos/material/material_shader_assembler.cpp:232-278 | In the sorted order, every vector sits at offset 16 times its position, because all vectors precede all scalars. |
| MaterialAssembler.ElementsCount | projects/PathosEngine/src/pathos/material/material_shader_assembler.cpp:256-279 | Element total = 4 per vector + 1 per scalar. |
| MaterialAssembler.BlockTotal | projects/PathosEngine/src/pathos/material/material_shader_assembler.cpp:281-302 | Padding after 1, 2 or 3 scalars completes the scalars to a multiple of four elements; 4 or more scalars get no padding. |
| MaterialAssembler.TextureDeclarations | projects/PathosEngine/src/pathos/material/material_shader_assembler.cpp:316-318 | One declaration line per texture parameter. |
| MaterialAssembler.AssembleTextureParameters | projects/PathosEngine/src/pathos/material/material_shader_assembler.cpp:310-326 | The text is the declarations, one per line, and each output parameter carries its description's name and binding, in order. |
| MaterialAssembler.TextureLines | projects/PathosEngine/src/pathos/material/material_shader_assembler.cpp:316-318 | Splitting the texture text at newlines gives back the declarations, followed by one empty piece. |
| MaterialAssembler.NatLeTotalOrder | projects/PathosEngine/src/pathos/material/material_shader_assembler.cpp:545-546 | The binding order is a total order, as std::sort needs. |
| MaterialAssembler.Bindings | projects/PathosEngine/src/pathos/material/material_shader_assembler.cpp:540-544 | One binding per texture parameter. |
| MaterialAssembler.TextureBindingsChanged | projects/PathosEngine/src/pathos/material/material_shader_assembler.cpp:536-553 | Comparing the sorted binding lists reports a change exactly when the bindings are not permutations of each other. |
| MaterialAssembler.RejectHotReload | projects/PathosEngine/src/pathos/material/material_shader_assembler.cpp:527-553 | A hot reload is rejected exactly when the UBO byte size differs or the binding multisets differ. |
| MaterialAssembler.NextPiece | projects/PathosEngine/src/pathos/material/material_shader_assembler.cpp:373-381 | Without a newline from the offset on, the piece is all that is left, which is the whole split of the rest. Otherwise the piece runs up to the newline, and the split of the rest is that piece followed by the split after the newline. |
| MaterialAssembler.SplitLine | projects/PathosEngine/src/pathos/material/material_shader_assembler.cpp:371-382 | The find-and-substr loop splits one line at every newline. |
| MaterialAssembler.SplitNewlines | projects/PathosEngine/src/pathos/material/material_shader_assembler.cpp:366-384 | The result is every input line's pieces, in order. |
| MaterialAssembler.SplitAllNoNewline | projects/PathosEngine/src/pathos/material/material_shader_assembler.cpp:366-384 | No output line contains a newline. |
| MaterialAssembler.SplitAllPreservesText | projects/PathosEngine/src/pathos/material/material_shader_assembler.cpp:366-384 | Joining the output with newlines gives back the input joined with newlines; non-empty input gives non-empty output. |
| MaterialAssembler.SplitAllPlain | projects/PathosEngine/src/pathos/material/material_shader_assembler.cpp:366-384 | Lines without newlines pass through unchanged. |
| MaterialAssembler.SplitAllIdempotent | projects/PathosEngine/src/pathos/material/material_shader_assembler.cpp:366-384 | Splitting twice is the same as splitting once (line 579 re-splits the template). |
| MaterialTemplates.FirstNamed | projects/PathosEngine/src/pathos/material/material_shader_assembler.cpp:355-360 | The lookup returns a table entry with that name; None means no entry has it. |
| MaterialTemplates.PlaceholderOfName | projects/PathosEngine/src/pathos/material/material_shader_assembler.cpp:336-350 | Each placeholder's name finds that placeholder, so no two table entries share a name. |
| MaterialTemplates.NamesDistinct | projects/PathosEngine/src/pathos/material/material_shader_assembler.cpp:336-350 | Placeholders with equal names are the same placeholder. |
| MaterialTemplates.BareHeaderIsHeader | projects/PathosEngine/src/pathos/material/material_shader_assembler.cpp:353-354 | A line starting with $NEED is too short for the name substring exactly when it is "$NEED" alone. |
| MaterialTemplates.LocateLineSpec | projects/PathosEngine/src/pathos/material/material_shader_assembler.cpp:352-360 | One line moves a placeholder to that line exactly when the line names it. |
| MaterialTemplates.LocateSpec | projects/PathosEngine/src/pathos/material/material_shader_assembler.cpp:351-362 | After the scan, each placeholder is at the last line naming it, or keeps its old index when no line names it. |
| MaterialTemplates.AllListedRequired | projects/PathosEngine/src/pathos/material/material_shader_assembler.h:15-29 | The conjunction in checkPlaceholders holds exactly when every placeholder but getSceneColor has an index. |
| MaterialTemplates.CheckPlaceholders | projects/PathosEngine/src/pathos/material/material_shader_assembler.h:15-29 | checkPlaceholders is true iff every placeholder except getSceneColor has an index other than -1. |
| MaterialTemplates.UnsetTotal | projects/PathosEngine/src/pathos/material/material_shader_assembler.h:88-100 | A fresh template has every placeholder index at -1. |
| MaterialTemplates.FixupLineSpec | projects/PathosEngine/src/pathos/material/material_shader_assembler.h:34-40 | A fixed-up line is non-empty and ends in a newline. It is the old line, with one newline added only when missing. |
| MaterialTemplates.FixupLineIdempotent | projects/PathosEngine/src/pathos/material/material_shader_assembler.h:34-40 | Fixing a line up twice is fixing it up once. |
| MaterialTemplates.MaterialTemplate.constructor | projects/PathosEngine/src/pathos/material/material_shader_assembler.h:88-101 | A template holds its lines with every index at -1. |
| MaterialTemplates.MaterialTemplate.Complete | projects/PathosEngine/src/pathos/material/material_shader_assembler.h:15-29 | checkPlaceholders on the template's own indices. |
| MaterialTemplates.MaterialTemplate.FindPlaceholder | projects/PathosEngine/src/pathos/material/material_shader_assembler.cpp:355-360 | The table loop returns the first entry named by the header. |
| MaterialTemplates.ScanNeedLine | projects/PathosEngine/src/pathos/material/material_shader_assembler.cpp:352-361 | One line: it throws exactly when the line is a bare "$NEED"; any other line updates the index map as the one-line scan specifies, keeping every placeholder set. |
| MaterialTemplates.ScanNeedLines | projects/PathosEngine/src/pathos/material/material_shader_assembler.cpp:351-362 | The line loop keeps every placeholder set. Without a bare "$NEED" line it yields the index map of the whole scan. Otherwise it stops at the first bare "$NEED" line, with the map of the lines before it. |
| MaterialTemplates.MaterialTemplate.UpdatePlaceholderIx | projects/PathosEngine/src/pathos/material/material_shader_assembler.cpp:332-364 | Lines are unchanged. Without a bare "$NEED" line, every placeholder moves to the last line naming it and complete is checkPlaceholders. A bare "$NEED" line makes substr throw at that line, leaving the indices scanned so far. |
| MaterialTemplates.MaterialTemplate.FixupNewlines | projects/PathosEngine/src/pathos/material/material_shader_assembler.h:34-40 | Each line becomes its fixed-up self; indices and line count unchanged. |
| MaterialTemplates.MaterialTemplate.Replace | projects/PathosEngine/src/pathos/material/material_shader_assembler.h:46-87 | A replace* overwrites only the line at the placeholder's stored index; the getSceneColor CHECK is the index precondition. |
| MaterialTemplates.MaterialTemplate.MakeClone | projects/PathosEngine/src/pathos/material/material_shader_assembler.h:42-44 | The clone is a fresh object with equal lines and indices. |
| MaterialTemplates.FixupTwice | projects/PathosEngine/src/pathos/material/material_shader_assembler.h:34-40 | After fixupNewlines every line is non-empty and ends in a newline; a second call changes nothing. |
| MaterialTemplates.CloneIndependent | projects/PathosEngine/src/pathos/material/material_shader_assembler.h:42-87 | Replacing a line in a clone leaves the original template unchanged. |
| Sequences.FirstIndex | projects/PathosEngine/src/pathos/render/shader.cpp:129-134 | The first index whose element passes the test, with no earlier element passing it; None means no element does. The shader builders use it for the first variable with a name, the input manager for the first active entry of a key. |
| ShaderSources.DeclaredSpec | projects/PathosEngine/src/pathos/render/shader.cpp:128-136 | A declaration throws exactly when the name is taken with another type. Otherwise the list keeps unique names and contains the variable, either unchanged or with it appended. |
| ShaderSources.DeclaredExtends | projects/PathosEngine/src/pathos/render/shader.cpp:128-136 | A declaration that does not throw keeps names unique and only extends the list: the old variables stay first, in order. |
| ShaderSources.DeclaredIdempotent | projects/PathosEngine/src/pathos/render/shader.cpp:128-136 | Declaring the same variable a second time changes nothing. |
| ShaderSources.Declare | projects/PathosEngine/src/pathos/render/shader.cpp:128-136 | The search loop computes the declaration result, including the throw. |
| ShaderSources.NameLePreorder | projects/PathosEngine/src/pathos/render/shader.cpp:109 | varComp, which orders by name, gives a total preorder, as std::sort needs. |
| ShaderSources.Decls | projects/PathosEngine/src/pathos/render/shader.cpp:185-195 | One declaration line per variable. |
| ShaderSources.EmitVars | projects/PathosEngine/src/pathos/render/shader.cpp:185-195 | The printing loop writes each variable's declaration line, in order. |
| ShaderSources.DeclsLines | projects/PathosEngine/src/pathos/render/shader.cpp:185-195 | The printed declarations split back at newlines into the declaration lines. |
| ShaderSources.Block | projects/PathosEngine/src/pathos/render/shader.cpp:412-427 | A geometry in/out block is printed exactly when it has variables. |
| ShaderSources.AutoOutVarsBlock | projects/PathosEngine/src/pathos/render/shader.cpp:167-169 | The varyings getCode adds keep names unique, and every requested varying (normal, uv, position) ends up declared. The VS_OUT block is therefore printed exactly when there is an out variable. |
| ShaderSources.AutoOutVarsStateAgrees | projects/PathosEngine/src/pathos/render/shader.cpp:167-169 | The out variables the three conditional outVar calls leave behind are the declared list when none throws; when one throws they still extend the old list by the varyings declared before it, with names unique. |
| ShaderSources.DeclareAutoOutVars | projects/PathosEngine/src/pathos/render/shader.cpp:167-169 | The three conditional outVar calls compute the same list, or the same throw, and leave behind the out variables declared before any throw. |
| ShaderSources.VertexShaderSource.constructor | projects/PathosEngine/src/pathos/render/shader.cpp:113-116 | A new vertex source is cleared, declares nothing and has the vertex shader type. |
| ShaderSources.VertexShaderSource.Clear | projects/PathosEngine/src/pathos/render/shader.cpp:153-162 | clear resets the flags, the locations (0 to 4) and the main code. It keeps the declarations and transferPosition. |
| ShaderSources.VertexShaderSource.OutVar | projects/PathosEngine/src/pathos/render/shader.cpp:128-136 | outVar is a declaration into outVars; a throw leaves the state unchanged. |
| ShaderSources.VertexShaderSource.Uniform | projects/PathosEngine/src/pathos/render/shader.cpp:140-148 | uniform is a declaration into uniforms, with the same throw. |
| ShaderSources.VertexShaderSource.UniformMat4 | projects/PathosEngine/src/pathos/render/shader.cpp:137-139 | uniformMat4 appends a mat4 uniform without checking for duplicates. |
| ShaderSources.VertexShaderSource.MainCode | projects/PathosEngine/src/pathos/render/shader.cpp:149-151 | The code line is appended, indented by two spaces. |
| ShaderSources.VertexShaderSource.PrintInputs | projects/PathosEngine/src/pathos/render/shader.cpp:172-182 | Prints the version line and each enabled attribute at its location. |
| ShaderSources.VertexShaderSource.PrintGlobals | projects/PathosEngine/src/pathos/render/shader.cpp:183-195 | Prints the VS_OUT block when a varying or out variable exists, then the two transform uniforms and the declared uniforms. |
| ShaderSources.VertexShaderSource.PrintMain | projects/PathosEngine/src/pathos/render/shader.cpp:197-207 | Prints main: the user code, then the normal and uv outputs, the clip position and the world position. |
| ShaderSources.VertexShaderSource.Print | projects/PathosEngine/src/pathos/render/shader.cpp:172-214 | The printed text is inputs, globals, then main. |
| ShaderSources.VertexShaderSource.GetCode | projects/PathosEngine/src/pathos/render/shader.cpp:163-215 | getCode throws exactly when declaring a requested varying throws, and then outVars holds the varyings declared before the throw. Otherwise outVars becomes a name-sorted permutation of the declared list, and the code is the print of that state. |
| ShaderSources.ArrayUniform | projects/PathosEngine/src/pathos/render/shader.cpp:244-249 | A light array uniform is a non-empty declaration. |
| ShaderSources.PrintLights | projects/PathosEngine/src/pathos/render/shader.cpp:243-250 | The light arrays are printed in order, each pair only for a positive count. |
| ShaderSources.LightLinesEmpty | projects/PathosEngine/src/pathos/render/shader.cpp:243-250 | No light arrays are printed exactly when both counts are zero. |
| ShaderSources.FragmentShaderSource.constructor | projects/PathosEngine/src/pathos/render/shader.cpp:219-222 | A new fragment source is cleared and has the fragment shader type. |
| ShaderSources.FragmentShaderSource.Clear | projects/PathosEngine/src/pathos/render/shader.cpp:223-230 | clear empties every declaration list, sets both light counts to 0 and the block name to VS_OUT, and empties the code. |
| ShaderSources.FragmentShaderSource.Uniform | projects/PathosEngine/src/pathos/render/shader.cpp:281-289 | uniform is a declaration into uniforms; the other lists are unchanged. |
| ShaderSources.FragmentShaderSource.InVar | projects/PathosEngine/src/pathos/render/shader.cpp:290-303 | inVar: the same name with the same type does nothing, with another type it throws, and a new name is appended. |
| ShaderSources.FragmentShaderSource.OutVar | projects/PathosEngine/src/pathos/render/shader.cpp:304-312 | outVar is a declaration into outVars. |
| ShaderSources.FragmentShaderSource.TextureSampler | projects/PathosEngine/src/pathos/render/shader.cpp:274-280 | Each textureSampler* declares a uniform of its sampler type. |
| ShaderSources.FragmentShaderSource.InterfaceBlockName | projects/PathosEngine/src/pathos/render/shader.cpp:313-315 | Sets the in-block name and nothing else. |
| ShaderSources.FragmentShaderSource.MainCode | projects/PathosEngine/src/pathos/render/shader.cpp:316-318 | The code line is appended, indented by two spaces. |
| ShaderSources.FragmentShaderSource.DirectionalLights | projects/PathosEngine/src/pathos/render/shader.cpp:319 | Sets the directional light count only. |
| ShaderSources.FragmentShaderSource.PointLights | projects/PathosEngine/src/pathos/render/shader.cpp:320 | Sets the point light count only. |
| ShaderSources.FragmentShaderSource.GetCode | projects/PathosEngine/src/pathos/render/shader.cpp:232-273 | The in variables become a name-sorted permutation of themselves and nothing else changes; the code is the print of that state. |
| ShaderSources.FragmentShaderSource.Print | projects/PathosEngine/src/pathos/render/shader.cpp:233-266 | The printed text: version, uniforms, light arrays, the in block when non-empty, outs, then main. |
| ShaderSources.GeometryShaderSource.constructor | projects/PathosEngine/src/pathos/render/shader.cpp:353-356 | Stores the primitives and the vertex limit, with the geometry shader type. |
| ShaderSources.GeometryShaderSource.DefaultAsWritten | projects/PathosEngine/src/pathos/render/shader.cpp:350-352 | As written, the default constructor builds a discarded temporary, so this object keeps indeterminate type and vertex limit and empty primitive names. |
| ShaderSources.GeometryShaderSource.Default | projects/PathosEngine/src/pathos/render/shader.cpp:350-352 | Corrected: triangles in, triangle_strip out, at most 3 vertices. |
| ShaderSources.GeometryShaderSource.Uniform | projects/PathosEngine/src/pathos/render/shader.cpp:358-366 | uniform is a declaration into uniforms. |
| ShaderSources.GeometryShaderSource.InVar | projects/PathosEngine/src/pathos/render/shader.cpp:367-375 | inVar is a declaration into inVars. |
| ShaderSources.GeometryShaderSource.OutVar | projects/PathosEngine/src/pathos/render/shader.cpp:376-384 | outVar is a declaration into outVars. |
| ShaderSources.GeometryShaderSource.MainCode | projects/PathosEngine/src/pathos/render/shader.cpp:386-388 | The code line is appended, indented by two spaces. |
| ShaderSources.GeometryShaderSource.GetCode | projects/PathosEngine/src/pathos/render/shader.cpp:390-438 | The in variables become a name-sorted permutation and nothing else changes; the code is the print of that state. |
| ShaderSources.DefaultGeometryAsWritten | projects/PathosEngine/src/pathos/render/shader.cpp:350-352 | Finding: the as-written default prints layout lines with empty primitives and an indeterminate vertex limit. |
| ShaderSources.DefaultGeometry | projects/PathosEngine/src/pathos/render/shader.cpp:350-352 | The corrected default prints triangles / triangle_strip / max_vertices = 3. |
| InputConstants.XboxOrdinal | projects/PathosEngine/src/pathos/input/input_constants.h:56-72 | The 16 gamepad constants occupy 16 consecutive ordinals. |
| InputConstants.Ordinal | projects/PathosEngine/src/pathos/input/input_constants.h:5-73 | Every enumerator has an ordinal no greater than 60, its position in the enumeration. |
| InputConstants.XboxOrdinalInjective | projects/PathosEngine/src/pathos/input/input_constants.h:56-72 | Distinct gamepad buttons have distinct ordinals. |
| InputConstants.OrdinalInjective | projects/PathosEngine/src/pathos/input/input_constants.h:5-73 | Distinct enumerators have distinct ordinals. |
| InputConstants.KeyCode | projects/PathosEngine/src/pathos/input/input_constants.h:75-332 | A letter's or digit's upper-case ASCII code is in the table's range. |
| InputConstants.DigitsInOrder | projects/PathosEngine/src/pathos/input/input_constants.h:124-133 | ASCII '0'+d maps to KEYBOARD_d, and the digit constants are consecutive. |
| InputConstants.LettersFoldCase | projects/PathosEngine/src/pathos/input/input_constants.h:141-166 | Upper and lower case of a letter map to the same KEYBOARD_ letter. |
| InputConstants.OthersUndefined | projects/PathosEngine/src/pathos/input/input_constants.h:75-332 | A code maps to UNDEFINED exactly when it is not a digit or a letter. |
| InputConstants.KeyCodeRoundTrip | projects/PathosEngine/src/pathos/input/input_constants.h:75-332 | The table maps a key's code back to the key. The codes that map to a key are exactly its code, and for letters also the lower-case code. |
| InputConstants.TableRange | projects/PathosEngine/src/pathos/input/input_constants.h:75-332 | The table yields only UNDEFINED, letters and digits. |
| InputConstants.KeyClasses | projects/PathosEngine/src/pathos/input/input_constants.h:334-341 | isModifierKey holds exactly for SHIFT, CTRL and ALT; isArrowKey exactly for the four arrows; no key is both. |
| InputManagers.MatchingEvents | projects/PathosEngine/src/pathos/input/input_manager.cpp:177-182 | At most one matching event per binding. |
| InputManagers.MatchingEventsSpec | projects/PathosEngine/src/pathos/input/input_manager.cpp:268-272 | An event is collected exactly when some binding holding the key names it. |
| InputManagers.Handlers | projects/PathosEngine/src/pathos/input/input_manager.cpp:274-279 | When every event is mapped, the handlers are called in event order. An unmapped event fails the CHECK (None). |
| InputManagers.CollectEvents | projects/PathosEngine/src/pathos/input/input_manager.cpp:268-272 | The binding loop collects the matching events. |
| InputManagers.FireHandlers | projects/PathosEngine/src/pathos/input/input_manager.cpp:274-279 | The dispatch loop calls the mapped handlers, or stops at the failing CHECK. |
| InputManagers.CoveredDispatches | projects/PathosEngine/src/pathos/input/input_manager.cpp:274-279 | When every binding's event is mapped, dispatch never fails its CHECK. |
| Sequences.Filter | projects/PathosEngine/src/pathos/input/input_manager.cpp:134-139 | Corrected unbind: the button or axis bindings kept are exactly those that pass the test, here those of other events, each as often as before. |
| Sequences.FilterConcat | projects/PathosEngine/src/pathos/input/input_manager.cpp:134-139 | Filtering keeps the bindings' relative order: filtering a concatenation is filtering each part and concatenating. |
| InputManagers.UnbindAsWrittenFailsCheck | projects/PathosEngine/src/pathos/input/input_manager.cpp:134-139 | Finding: as written, unbinding erases only the mapping. A later press of a key of the stale binding fails the CHECK at line 186. |
| InputManagers.FoldCase | projects/PathosEngine/src/pathos/input/input_manager.cpp:170-172 | Upper-case ASCII letters move to lower case, and every other code is kept. |
| InputManagers.FoldCaseKeepsKey | projects/PathosEngine/src/pathos/input/input_manager.cpp:170-172 | Folding does not change the key a code maps to, and is idempotent. |
| InputManagers.AxisValueNoKey | projects/PathosEngine/src/pathos/input/input_manager.cpp:119-130 | An axis none of whose keys is active is 0. |
| InputManagers.AxisValueFirstKey | projects/PathosEngine/src/pathos/input/input_manager.cpp:121-129 | Otherwise the axis is the first active key's value times that key's multiplier. |
| InputManagers.AxisMappingAfterKeys | projects/PathosEngine/src/pathos/input/input_manager.cpp:118-131 | After the update, the axis map's keys are its old keys plus every bound event. |
| InputManagers.UnbindAxisAsWrittenRestored | projects/PathosEngine/src/pathos/input/input_manager.cpp:118-119 | Finding: as written, an unbound axis is put back into axisMapping by the next updateAxisValue. |
| InputManagers.AssignAxes | projects/PathosEngine/src/pathos/input/input_manager.cpp:118-131 | The binding loop computes the specified axis map. |
| InputManagers.FindActive | projects/PathosEngine/src/pathos/input/input_manager.cpp:123 | The search loop computes FindKey. |
| InputManagers.FindKeyFirst | projects/PathosEngine/src/pathos/input/input_manager.cpp:123 | FindKey is the first index holding the key. |
| InputManagers.InputManager.constructor | projects/PathosEngine/src/pathos/input/input_manager.cpp:14-300 | No key is down, no modifier is active, and nothing is bound or mapped. |
| InputManagers.InputManager.HasButtonPressed | projects/PathosEngine/src/pathos/input/input_manager.cpp:16-20 | True exactly when the event's hash is a key of the pressed-handler map; BindButtonPressed makes it true and the unbinds make it false. |
| InputManagers.InputManager.HasButtonReleased | projects/PathosEngine/src/pathos/input/input_manager.cpp:22-26 | True exactly when the event's hash is a key of the released-handler map. |
| InputManagers.InputManager.HasAxis | projects/PathosEngine/src/pathos/input/input_manager.cpp:28-32 | True exactly when the event's hash is a key of the axis-value map. |
| InputManagers.InputManager.BindButtonPressed | projects/PathosEngine/src/pathos/input/input_manager.cpp:34-45 | The bind succeeds iff the event is not yet mapped. On success the binding is appended under the event and the handler registered; otherwise nothing changes. Consistency is kept. |
| InputManagers.InputManager.BindButtonReleased | projects/PathosEngine/src/pathos/input/input_manager.cpp:47-58 | The same for released bindings. |
| InputManagers.InputManager.BindAxis | projects/PathosEngine/src/pathos/input/input_manager.cpp:60-71 | The same for axes, with the axis value starting at 0. |
| InputManagers.InputManager.UnbindButtonPressedAsWritten | projects/PathosEngine/src/pathos/input/input_manager.cpp:134-139 | As written: returns whether the event was mapped, erases only the mapping and keeps the bindings. |
| InputManagers.InputManager.UnbindButtonReleasedAsWritten | projects/PathosEngine/src/pathos/input/input_manager.cpp:141-146 | As written, for released bindings. |
| InputManagers.InputManager.UnbindAxisAsWritten | projects/PathosEngine/src/pathos/input/input_manager.cpp:148-153 | As written, for axes. |
| InputManagers.InputManager.UnbindButtonPressed | projects/PathosEngine/src/pathos/input/input_manager.cpp:134-139 | Corrected: also drops the event's bindings, so every binding stays mapped. |
| InputManagers.InputManager.UnbindButtonReleased | projects/PathosEngine/src/pathos/input/input_manager.cpp:141-146 | Corrected, for released bindings. |
| InputManagers.InputManager.UnbindAxis | projects/PathosEngine/src/pathos/input/input_manager.cpp:148-153 | Corrected, for axes. |
| InputManagers.InputManager.ProcessRawKeyDown | projects/PathosEngine/src/pathos/input/input_manager.cpp:166-191 | The folded key is marked down. A key already down fires nothing; otherwise the matching pressed handlers fire. A consistent manager never fails the CHECK. |
| InputManagers.InputManager.ProcessRawKeyUp | projects/PathosEngine/src/pathos/input/input_manager.cpp:193-216 | The folded key is marked up and the matching released handlers always fire. |
| InputManagers.InputManager.ProcessSpecialKeyDown | projects/PathosEngine/src/pathos/input/input_manager.cpp:218-239 | The pressed modifier's flag is set and the pressed handlers of bindings holding the key fire; the bindings are unchanged. |
| InputManagers.InputManager.ProcessSpecialKeyUp | projects/PathosEngine/src/pathos/input/input_manager.cpp:241-261 | The released modifier's flag is cleared and the released handlers fire. |
| InputManagers.InputManager.ProcessButtonDown | projects/PathosEngine/src/pathos/input/input_manager.cpp:263-280 | The pressed handlers of bindings holding the button fire. |
| InputManagers.InputManager.ProcessButtonUp | projects/PathosEngine/src/pathos/input/input_manager.cpp:282-298 | The released handlers of bindings holding the button fire. |
| InputManagers.InputManager.UpdateAxisValue | projects/PathosEngine/src/pathos/input/input_manager.cpp:98-132 | The axis map becomes the specified one, over gamepad keys, then held ASCII keys in code order, then modifiers. Everything else is unchanged. |
| XInput.PadKeysDistinct | projects/PathosEngine/src/pathos/input/xinput_manager.cpp:24-28 | The 14 buttons map to distinct input constants. |
| XInput.PressedReleasedSpec | projects/PathosEngine/src/pathos/input/xinput_manager.cpp:52-69 | A button is reported held exactly when its bit is set. It is pressed when the bit is set now and was clear in the previous state, and released in the opposite case. |
| XInput.PressedReleasedDisjoint | projects/PathosEngine/src/pathos/input/xinput_manager.cpp:52-69 | No button is both pressed and released; every pressed button is held; the lists fit the fixed arrays. |
| XInput.SameStateNoEdges | projects/PathosEngine/src/pathos/input/xinput_manager.cpp:52-69 | Identical button states report nothing pressed or released. |
| XInput.ScanButtons | projects/PathosEngine/src/pathos/input/xinput_manager.cpp:48-69 | The mask loop produces exactly the held, pressed and released lists. |
| XInput.XInputManager.constructor | projects/PathosEngine/src/pathos/input/xinput_manager.cpp:32-121 | Every slot starts in the default, disconnected state. |
| XInput.XInputManager.Update | projects/PathosEngine/src/pathos/input/xinput_manager.cpp:32-121 | Succeeds iff no poll is an unexpected error (CHECK_NO_ENTRY). Each slot then takes its poll step: same packet only marks connected, a new packet rescans the buttons, and a missing device resets the slot. |
| XInput.PollSlot | projects/PathosEngine/src/pathos/input/xinput_manager.cpp:32-121 | One successful poll turns a slot into PollStep of it: a missing pad resets it, the same packet only marks it connected, and a new packet rescans the buttons. |
| XInput.PollSlots | projects/PathosEngine/src/pathos/input/xinput_manager.cpp:32-121 | Succeeds iff no poll is an error; on success every slot has taken its own poll step. |
| XInput.XInputManager.GetPressed | projects/PathosEngine/src/pathos/input/xinput_manager.cpp:139-147 | A connected pad's output is exactly its recorded pressed buttons; otherwise the output is left as it was. |
| XInput.XInputManager.GetReleased | projects/PathosEngine/src/pathos/input/xinput_manager.cpp:149-157 | The same for released buttons. |
| XInput.XInputManager.AppendActiveKeys | projects/PathosEngine/src/pathos/input/xinput_manager.cpp:130-137 | For a connected pad its active keys are appended after the existing ones, each with its multiplier; otherwise nothing is appended. |
| XInput.CopyButtons | projects/PathosEngine/src/pathos/input/xinput_manager.cpp:142-145 | The copy loop reproduces the recorded list. |
| FontCache.RowCells | projects/PathosEngine/src/pathos/text/font_texture_cache.cpp:31-41 | One cell per column in a grid row. |
| FontCache.GridSize | projects/PathosEngine/src/pathos/text/font_texture_cache.cpp:31-41 | init creates cols × rows empty cells, each inside the grid. |
| FontCache.FontTextureCache.constructor | projects/PathosEngine/src/pathos/text/font_texture_cache.cpp:6-8 | A new cache has no cells. |
| FontCache.FontTextureCache.Init | projects/PathosEngine/src/pathos/text/font_texture_cache.cpp:14-53 | Fails, with nothing changed, when the face or the pixel size cannot be set. Otherwise the grid is the texture size divided by the glyph advance and height, and every grid cell joins the unused list. An empty cache that initialises holds exactly the grid, so the cell invariant holds. |
| FontCache.FontTextureCache.Contains | projects/PathosEngine/src/pathos/text/font_texture_cache.cpp:70-75 | True exactly when some used cell holds the character. |
| FontCache.FontTextureCache.InsertAsWritten | projects/PathosEngine/src/pathos/text/font_texture_cache.cpp:77-107 | As written: a cached character succeeds with nothing changed. Otherwise the oldest used cell (full cache) or the last unused cell is taken. It is pushed back, holding the character, only when loading succeeds; when loading fails it is lost. |
| FontCache.FontTextureCache.Insert | projects/PathosEngine/src/pathos/text/font_texture_cache.cpp:77-107 | Corrected: success iff the character was cached or loads, and then it is cached. A full cache evicts the oldest cell, otherwise the last unused cell is used. A failed load keeps the cell: on a full cache the evicted oldest cell becomes the only unused one, otherwise both lists are unchanged, so the total number of cells stays constant. |
| FontCache.FontTextureCache.GetGlyph | projects/PathosEngine/src/pathos/text/font_texture_cache.cpp:62-68 | Corrected insert: after the insert, a glyph is found iff the character was cached or loads; it is a used cell holding that character. |
| FontCache.FontTextureCache.GetGlyphAsWritten | projects/PathosEngine/src/pathos/text/font_texture_cache.cpp:62-68 | As written: a glyph is found iff the character was cached or loads, and it is a used cell holding that character; a character that fails to load costs the cache one cell. |
| FontCache.LostCellAsWritten | projects/PathosEngine/src/pathos/text/font_texture_cache.cpp:93-95 | Finding: on a 1×1 grid, one failed load as written leaves a cache with no cells at all. |
| FontCache.KeptCell | projects/PathosEngine/src/pathos/text/font_texture_cache.cpp:93-95 | The corrected cache still owns its one cell after the same failed load. |
| Console.Header | projects/PathosEngine/src/pathos/console.cpp:122-123 | The header is the command up to its first space: it contains no space, is a prefix of the command, and is the whole command when there is no space. |
| Console.ExecTargetSpec | projects/PathosEngine/src/pathos/engine.cpp:249-261 | A command runs an exec exactly when its header is registered, whatever follows the first space. |
| Console.LowerString | projects/PathosEngine/src/pathos/console.cpp:149 | The case-folded name, character by character. |
| Console.FirstCvar | projects/PathosEngine/src/pathos/console.cpp:146-154 | The first registered variable whose name matches case-insensitively, or none when no name matches. |
| Console.FindCvar | projects/PathosEngine/src/pathos/console.cpp:146-154 | The registry loop computes FirstCvar. |
| Console.FirstCvarFoldsCase | projects/PathosEngine/src/pathos/console.cpp:146-154 | Lookup does not depend on the case of the name. |
| Console.Evaluate | projects/PathosEngine/src/pathos/console.cpp:116-139 | The evaluation loop computes the specified outcome. |
| Console.EvaluationSpec | projects/PathosEngine/src/pathos/console.cpp:116-139 | An exec whose header is registered wins. Otherwise a matching console variable parses the text after the first space; with no match, nothing happens. |
| Console.Shifted | projects/PathosEngine/src/pathos/console.cpp:106-108 | Every kept label moves up by LINE_GAP, its text unchanged. |
| Console.Texts | projects/PathosEngine/src/pathos/console.cpp:89-114 | The texts of the labels, in order. |
| Console.AddedLinesSpec | projects/PathosEngine/src/pathos/console.cpp:89-114 | addLine keeps label i at (i+1)·LINE_GAP, and the window shows the last MAX_LINES = 18 texts, newest last. |
| Console.AddedLinesStacked | projects/PathosEngine/src/pathos/console.cpp:94-111 | After addLine the labels are still one line gap apart from the top, at most 18 of them, and the newest holds the added text. |
| Console.ShiftUp | projects/PathosEngine/src/pathos/console.cpp:104-110 | The loop moves every kept label up by one line gap, keeping its text. |
| Console.ConsoleWindow.constructor | projects/PathosEngine/src/pathos/console.cpp:15-21 | A new console is visible, with empty input and no lines. |
| Console.ConsoleWindow.Toggle | projects/PathosEngine/src/pathos/console.cpp:55-57 | Visibility flips; input and lines are kept. |
| Console.ConsoleWindow.Prompt | projects/PathosEngine/src/pathos/console.cpp:77 | The prompt label is "> " followed by the input. |
| Console.CString | projects/PathosEngine/src/pathos/console.cpp:89-94 | The text a wide C string holds: a prefix of the buffer with no NUL, ending just before the first NUL when there is one. |
| Console.CStringStopsAtNul | projects/PathosEngine/src/pathos/console.cpp:89-94 | A buffer without NUL is read whole, and whatever follows a NUL is never read. |
| Console.ConsoleWindow.AddLine | projects/PathosEngine/src/pathos/console.cpp:89-120 | The text is read up to its first NUL. When that is empty, nothing is added and null is returned. Otherwise the label holding it is appended within the layout, that same text is evaluated, and the new label is returned. |
| Console.ConsoleWindow.OnKeyPress | projects/PathosEngine/src/pathos/console.cpp:63-80 | Backspace drops the last character, if any. Enter submits the input, read up to its first NUL, through addLine and clears it. Any other key, 0 included, is appended to the input. |
| Console.KeyInput | projects/PathosEngine/src/pathos/console.cpp:63-74 | Backspace shortens a non-empty input by its last character, enter empties it, and any other code is appended as the last character. |
| Console.TypeThenBackspace | projects/PathosEngine/src/pathos/console.cpp:63-74 | Typing a character and then backspace restores the input. |
| Engines.Engine.constructor | projects/PathosEngine/src/pathos/engine.cpp:202-213 | No key is down and no exec is registered. The console created by initializeConsole starts visible with empty input and shows exactly the banner line "Built-in debug console. Press ` to toggle." at the first line position. |
| Engines.Engine.ShowBanner | projects/PathosEngine/src/pathos/engine.cpp:209 | initializeConsole's addLine of the banner leaves exactly the banner label, one line gap down. |
| Engines.Engine.RegisterExec | projects/PathosEngine/src/pathos/engine.cpp:240-247 | A command that is already registered keeps its procedure; a new one is added. |
| Engines.Engine.Execute | projects/PathosEngine/src/pathos/engine.cpp:249-261 | Runs the procedure registered for the command's header; true exactly when there is one. |
| Engines.Engine.OnKeyDown | projects/PathosEngine/src/pathos/engine.cpp:312-328 | The key is marked down, and the press callback runs only when it was up. The backtick toggles the console and keeps its input and lines. A visible console receives the key: its input, lines and evaluation are those of onKeyPress. Otherwise the key-down callback runs and the console is unchanged. |
| Engines.Engine.OnKeyUp | projects/PathosEngine/src/pathos/engine.cpp:330-334 | The key is marked up and always goes to the application's key-up callback. |
| Engines.HoldAndRelease | projects/PathosEngine/src/pathos/engine.cpp:312-334 | Holding a key repeats no press callback; after release the next down fires it again. |
| RenderCommandLists.RenderCommandList.constructor | projects/PathosEngine/src/pathos/rhi/render_command_list.h:33-42 | A new list has no packets, no hook list, no deferred cleanups and flush depth 0. |
| RenderCommandLists.RenderCommandList.SetHookCommandList | projects/PathosEngine/src/pathos/rhi/render_command_list.cpp:14-17 | Requires no hook list yet and a list other than itself; installs the hook list and changes nothing else. |
| RenderCommandLists.RenderCommandList.GetNextPacket | projects/PathosEngine/src/pathos/rhi/render_command_list.cpp:97-105 | A packet is obtained exactly when the allocator still has room; it is appended after every earlier packet, and otherwise nothing changes. |
| RenderCommandLists.RenderCommandList.RegisterHook | projects/PathosEngine/src/pathos/rhi/render_command_list.cpp:69-83 | Requires a hook list; records one hook packet at the end when there is room, and otherwise nothing. |
| RenderCommandLists.RenderCommandList.RegisterDeferredCleanup | projects/PathosEngine/src/pathos/rhi/render_command_list.cpp:85-88 | The memory block joins the end of the deferred-cleanup list; the packets are untouched. |
| RenderCommandLists.RenderCommandList.ExecuteAllCommands | projects/PathosEngine/src/pathos/rhi/render_command_list.cpp:26-52 | Runs every recorded packet once, in recording order, and keeps the list. |
| RenderCommandLists.RenderCommandList.ClearAllCommands | projects/PathosEngine/src/pathos/rhi/render_command_list.cpp:19-24 | Empties the packet list and keeps the deferred cleanups and the hook list. |
| RenderCommandLists.RenderCommandList.PerformDeferredCleanup | projects/PathosEngine/src/pathos/rhi/render_command_list.cpp:89-95 | Frees exactly the registered blocks, in order, and empties the cleanup list. |
| RenderCommandLists.RenderCommandList.FlushAllCommands | projects/PathosEngine/src/pathos/rhi/render_command_list.cpp:54-67 | A nested flush does nothing; an outer flush executes the old packets, then leaves both the list and the cleanups empty, and the depth is restored. |
| RenderCommandLists.RenderCommandList.GetNumCommands | projects/PathosEngine/src/pathos/rhi/render_command_list.h:78 | The number of recorded packets. |
| RenderCommandLists.RecordAndFlush | projects/PathosEngine/src/pathos/rhi/render_command_list.cpp:54-67 | Recording packets and then flushing executes exactly those packets in order and leaves the list empty. |
| GpuCounters.ElapsedNs | projects/PathosEngine/src/pathos/rhi/gl_debug_group.cpp:125 | The end-minus-begin difference of two 64-bit timestamps wraps modulo 2^64: it is the plain difference when end is not earlier, and the difference plus 2^64 otherwise. |
| GpuCounters.Results | projects/PathosEngine/src/pathos/rhi/gl_debug_group.cpp:110-129 | Counter c reports its name, its indent and the elapsed time between query objects 2c and 2c+1. |
| GpuCounters.EvenStep | projects/PathosEngine/src/pathos/rhi/gl_debug_group.cpp:91-94 | With even counts, a used count below the maximum leaves room for a whole pair, and its slot index is in range. |
| GpuCounters.GpuCounterContext.constructor | projects/PathosEngine/src/pathos/rhi/gl_debug_group.cpp:22 | The context starts with no pool, no nesting and no used queries. |
| GpuCounters.GpuCounterContext.InitializeQueryObjectPool | projects/PathosEngine/src/pathos/rhi/gl_debug_group.cpp:53-67 | Requires a positive count and a pool that is not yet initialized; creates two query objects per counter and one name slot per counter, with none used. |
| GpuCounters.GpuCounterContext.DestroyQueryObjectPool | projects/PathosEngine/src/pathos/rhi/gl_debug_group.cpp:69-81 | Requires an initialized pool with every query returned; empties the pool and marks it uninitialized. |
| GpuCounters.GpuCounterContext.GetUnusedQueryObject | projects/PathosEngine/src/pathos/rhi/gl_debug_group.cpp:83-97 | Succeeds exactly when the pool is not exhausted; on success it hands out the next two pool entries and records the name and indent in the pair's slot, and on failure nothing changes. |
| GpuCounters.GpuCounterContext.BeginCounter | projects/PathosEngine/src/pathos/rhi/gl_debug_group.cpp:24-40 | A counter starts exactly when queries are available; it raises the nesting by one and records the old nesting as its indent. |
| GpuCounters.GpuCounterContext.EndCounter | projects/PathosEngine/src/pathos/rhi/gl_debug_group.cpp:42-51 | A started counter lowers the nesting by one, which never goes negative; a failed one changes nothing. |
| GpuCounters.GpuCounterContext.FlushQueries | projects/PathosEngine/src/pathos/rhi/gl_debug_group.cpp:99-134 | Returns one result per used pair, in start order and paired with the recorded names and indents, and returns every query to the pool. |
| GpuCounters.TwoNestedCounters | projects/PathosEngine/src/pathos/rhi/gl_debug_group.cpp:24-51 | Two nested counters get four distinct queries; the flush reports the outer counter first, and the inner indent is one more than the outer. |
| LiveObjects.BytesOfInternalformat | projects/PathosEngine/src/pathos/rhi/gl_live_objects.cpp:8-38 | Zero exactly for a format outside the table; otherwise one of the listed byte sizes. |
| LiveObjects.Uniform | projects/PathosEngine/src/pathos/rhi/gl_live_objects.cpp:8-38 | n channels of equal width. |
| LiveObjects.SumUniform | projects/PathosEngine/src/pathos/rhi/gl_live_objects.cpp:8-38 | n channels of b bits add up to n times b bits. |
| LiveObjects.SumOfFour | projects/PathosEngine/src/pathos/rhi/gl_live_objects.cpp:21-26 | Three and four channel widths add up to their plain sums. |
| LiveObjects.PackedLayout | projects/PathosEngine/src/pathos/rhi/gl_live_objects.cpp:21-26 | The packed formats (R11F_G11F_B10F, RGB10_A2, RGB9_E5) are 4 bytes, which is exactly their 32 channel bits. |
| LiveObjects.UniformFormats | projects/PathosEngine/src/pathos/rhi/gl_live_objects.cpp:8-38 | For every format that is not packed, 8 times the byte size is its channel count times its channel width; an unknown format has 0 of both. |
| LiveObjects.BytesMatchLayout | projects/PathosEngine/src/pathos/rhi/gl_live_objects.cpp:8-38 | For every format, the table's byte size is the sum of the format's channel widths in bits, divided by 8. |
| LiveObjects.CreatedKindShared | projects/PathosEngine/src/pathos/rhi/gl_live_objects.cpp:109-151 | Two wrappers feed the same set exactly when they are equal, both texture wrappers, or both query wrappers. |
| LiveObjects.IdSet | projects/PathosEngine/src/pathos/rhi/gl_live_objects.cpp:109-151 | The set holds exactly the names that occur in the array. |
| LiveObjects.GLLiveObjects.constructor | projects/PathosEngine/src/pathos/rhi/gl_live_objects.cpp:42 | Every kind's set starts empty. |
| LiveObjects.GLLiveObjects.Create | projects/PathosEngine/src/pathos/rhi/gl_live_objects.cpp:109-151 | All n names enter the wrapper's set, and no other set changes. |
| LiveObjects.GLLiveObjects.Delete | projects/PathosEngine/src/pathos/rhi/gl_live_objects.cpp:153-187 | All n names leave the kind's set, and no other set changes. |
| LiveObjects.SetsTotalUpdate | projects/PathosEngine/src/pathos/rhi/gl_live_objects.cpp:95-106 | Replacing one kind's set changes the leak total by the change in that set's size. |
| LiveObjects.CreateThenDelete | projects/PathosEngine/src/pathos/rhi/gl_live_objects.cpp:95-187 | Creating n distinct new names raises the leak total by n, and deleting them restores every set and the total. |
| LiveObjects.DeleteUndoesCreate | projects/PathosEngine/src/pathos/rhi/gl_live_objects.cpp:153-187 | Erasing names that were inserted into a set lacking them restores the tracker. |
| LiveObjects.DistinctIdSet | projects/PathosEngine/src/pathos/rhi/gl_live_objects.cpp:109-151 | Distinct names give a set of the same size. |
| RenderTargets.GLFormatRoundTrip | projects/PathosEngine/src/pathos/render/render_target.cpp:6-22 | The format table is one-to-one: each render target format comes back from its GL internal format, so no two formats share one. |
| RenderTargets.ColorDepthComplement | projects/PathosEngine/src/pathos/render/render_target.cpp:24-62 | Every format is exactly one of colour and depth, and it is a depth format exactly when its GL format is a depth component. |
| RenderTargets.Pow2 | projects/PathosEngine/src/pathos/render/render_target.cpp:201 | Powers of two are at least 1. |
| RenderTargets.Log2FloorBounds | projects/PathosEngine/src/pathos/render/render_target.cpp:201 | floor(log2 w) is the k with 2^k <= w < 2^(k+1). |
| RenderTargets.NumMips | projects/PathosEngine/src/pathos/render/render_target.cpp:201-202 | The mip count is at least 1 and at most the full chain; a request of 0 gives the full chain, and any other request is capped at it. |
| RenderTargets.RenderTarget2D.constructor | projects/PathosEngine/src/pathos/render/render_target.cpp:90-92 | A new 2D target has no texture and zero size. |
| RenderTargets.RenderTarget2D.DestroyResource | projects/PathosEngine/src/pathos/render/render_target.cpp:138-148 | A live texture is deleted exactly once and the name reset to 0; with no texture nothing is enqueued. Size and format are kept. |
| RenderTargets.RenderTarget2D.RespecTexture | projects/PathosEngine/src/pathos/render/render_target.cpp:98-132 | A zero width or height changes nothing. Otherwise the old texture is deleted, the size and format are recorded, and one texture of that GL format and size is enqueued for creation. |
| RenderTargets.RenderTarget2D.TextureCreated | projects/PathosEngine/src/pathos/render/render_target.cpp:122-124 | The render thread's createTextures stores the new name and keeps the size and format. |
| RenderTargets.RenderTargetCube.constructor | projects/PathosEngine/src/pathos/render/render_target.cpp:171-175 | A new cube target has no texture and six zero view names. |
| RenderTargets.RenderTargetCube.ZeroViews | projects/PathosEngine/src/pathos/render/render_target.cpp:259 | The memset leaves all six view handles zero. |
| RenderTargets.RenderTargetCube.DestroyResourcesAsWritten | projects/PathosEngine/src/pathos/render/render_target.cpp:248-262 | As written: a live cube is deleted under its name, but the views are deleted under the handles the command reads when it runs. On the render thread those are the old names; off it they are the six zeros the memset left. All seven handles end zero, and with no cube nothing is enqueued. |
| RenderTargets.RenderTargetCube.DestroyResources | projects/PathosEngine/src/pathos/render/render_target.cpp:248-262 | Corrected capture: a live cube deletes the cube texture, then its six views under the names they had, and zeroes all seven handles; with no cube nothing is enqueued and the handles are kept. |
| RenderTargets.RenderTargetCube.Respecify | projects/PathosEngine/src/pathos/render/render_target.cpp:195-230 | The new width, format and capped mip count are recorded, the cube name is kept, and the creation of the cube and its six face views is queued. |
| RenderTargets.RenderTargetCube.RespecTextureAsWritten | projects/PathosEngine/src/pathos/render/render_target.cpp:181-262 | As written: a zero width changes nothing. Otherwise destroyResources as written runs first, so the old cube is deleted under its name and the views under the old names on the render thread but under six zeros off it; then the new cube and its views are queued and the fields recorded. |
| RenderTargets.RenderTargetCube.RespecTexture | projects/PathosEngine/src/pathos/render/render_target.cpp:181-242 | Corrected capture: a zero width changes nothing. Otherwise the command list is the deletion of the old cube and views under the names they had, on any thread, then the creation of a cube of the new format, width and capped mip count, then one 2D view per face, layers 0 to 5. The width, format and mip count are recorded, and the handles stay zero until the render thread names them. |
| RenderTargets.RenderTargetCube.TexturesCreated | projects/PathosEngine/src/pathos/render/render_target.cpp:210-218 | The render thread stores the cube name and the six view names it generated. |
| RenderTargets.RenderTargetCube.GetRenderTargetView | projects/PathosEngine/src/pathos/render/render_target.cpp:264-267 | Face i (below 6) yields the view of this cube at layer i. |
| RenderTargets.GLName | projects/PathosEngine/src/pathos/render/render_target.cpp:69-75 | A 2D view names its target's texture; a cube view names the texture view of its layer. |
| RenderTargets.ViewIsDepthFormat | projects/PathosEngine/src/pathos/render/render_target.cpp:77-83 | A view is depth exactly when the target it belongs to has a depth format. |
| RenderTargets.CubeFaceView | projects/PathosEngine/src/pathos/render/render_target.cpp:69-83 | A cube's face view names that face's texture view, is a depth view exactly when the cube's GL format is one of the three depth components, and is a depth view exactly when the cube's format is not a colour format. |
| RenderTargets.FaceViews | projects/PathosEngine/src/pathos/render/render_target.cpp:220-229 | The view loop queues exactly one view per layer 0 to n-1, in layer order. |
| RenderTargets.DeferredDestroyLeaksViews | projects/PathosEngine/src/pathos/render/render_target.cpp:248-262 | As written, off the render thread, once the render thread has named the six views, the deletion names the cube but none of the views. |
| RenderTargets.DeferredRespecLeaksViews | projects/PathosEngine/src/pathos/render/render_target.cpp:181-262 | As written, a respecification made off the render thread, once the render thread has named the old views, deletes the old cube but none of its views. |
| RenderTargets.DestroyDeletesViews | projects/PathosEngine/src/pathos/render/render_target.cpp:248-262 | With the corrected capture, the cube and every one of its six views are queued for deletion. |
| RenderTargets.RespecTwice | projects/PathosEngine/src/pathos/render/render_target.cpp:181-262 | Corrected capture: respecifying a cube whose textures were named deletes exactly those names before queuing the new cube and its views; afterwards the handles are zero. |
| RenderTargets.EnqueueCreation | projects/PathosEngine/src/pathos/render/render_target.cpp:208-230 | The enqueued creation is the cube of the given format, width and mip count, then the view loop's six face views, layer 0 to 5. |
| GeometryPrimitives.VertexAttributesSpec | projects/PathosEngine/src/pathos/mesh/geometry_primitive.cpp:7-23 | Position, UV and normal attributes appear exactly when their option is set; tangent and bitangent appear together, exactly when the tangent basis is requested; no options give no attributes. |
| GeometryPrimitives.PlaneQuad | projects/PathosEngine/src/pathos/mesh/geometry_primitive.cpp:101-112 | One grid cell writes six indices. |
| GeometryPrimitives.PlaneQuadBound | projects/PathosEngine/src/pathos/mesh/geometry_primitive.cpp:102-109 | Every index of cell (i, j) lies in grid rows i and i+1. |
| GeometryPrimitives.PlaneRowBound | projects/PathosEngine/src/pathos/mesh/geometry_primitive.cpp:103-111 | The indices of row i's cells stay below the end of vertex row i+1. |
| GeometryPrimitives.PlaneRowsBound | projects/PathosEngine/src/pathos/mesh/geometry_primitive.cpp:101-112 | The first i rows of cells only use the first i+1 vertex rows. |
| GeometryPrimitives.PlaneIndicesInRange | projects/PathosEngine/src/pathos/mesh/geometry_primitive.cpp:43-112 | Every index of a gx by gy plane names one of its (gx+1)(gy+1) vertices. |
| GeometryPrimitives.PlaneQuadTriangles | projects/PathosEngine/src/pathos/mesh/geometry_primitive.cpp:104-109 | Cell (i, j) is the triangles (i,j),(i,j+1),(i+1,j) and (i,j+1),(i+1,j+1),(i+1,j) of the vertex grid. |
| GeometryPrimitives.PlaneRowCells | projects/PathosEngine/src/pathos/mesh/geometry_primitive.cpp:103-111 | Cell c of a row sits at slots 6c to 6c+5 of that row's indices. |
| GeometryPrimitives.GeneratePlane | projects/PathosEngine/src/pathos/mesh/geometry_primitive.cpp:31-113 | Requires the position option. The position, UV and normal buffers are sized for (gx+1)(gy+1) vertices, the UV and normal buffers only when requested; the index buffer holds exactly the gx·gy cells, row by row. |
| GeometryPrimitives.RowRoom | projects/PathosEngine/src/pathos/mesh/geometry_primitive.cpp:54 | Writing row i < n of width w fits inside the w·n buffer. |
| GeometryPrimitives.WritePlaneRow | projects/PathosEngine/src/pathos/mesh/geometry_primitive.cpp:102-111 | The inner loop appends row i's cells to the buffer and keeps what came before. |
| GeometryPrimitives.WriteQuad | projects/PathosEngine/src/pathos/mesh/geometry_primitive.cpp:104-110 | The six stores of one cell append its two triangles at slot k and keep the earlier slots. |
| GeometryPrimitives.CubeIndicesSpec | projects/PathosEngine/src/pathos/mesh/geometry_primitive.cpp:179-212 | The corner table has 12 triangles over corners 0 to 7 and uses every corner. |
| GeometryPrimitives.CubeNoSmoothing | projects/PathosEngine/src/pathos/mesh/geometry_primitive.cpp:193-260 | Each triangle gets three vertices of its own: vertex v is corner CubeIndices[v], the indices are 0 to 35 in order, and the buffers hold 108 position floats, 72 texture coordinates and 108 normal floats. |
| GeometryPrimitives.SphereQuad | projects/PathosEngine/src/pathos/mesh/geometry_primitive.cpp:312-328 | Each vertex outside the last row writes six indices. |
| GeometryPrimitives.InnerQuad | projects/PathosEngine/src/pathos/mesh/geometry_primitive.cpp:314-319 | A vertex that is not last in its row writes six indices. |
| GeometryPrimitives.SeamQuad | projects/PathosEngine/src/pathos/mesh/geometry_primitive.cpp:321-326 | The last vertex of a row writes six indices. |
| GeometryPrimitives.SphereRow | projects/PathosEngine/src/pathos/mesh/geometry_primitive.cpp:292-330 | The first j vertices of a row write 6j indices. |
| GeometryPrimitives.SphereRows | projects/PathosEngine/src/pathos/mesh/geometry_primitive.cpp:290-331 | The first i rows write 6·d·i indices. |
| GeometryPrimitives.SphereQuadBound | projects/PathosEngine/src/pathos/mesh/geometry_primitive.cpp:312-328 | The triangles of a vertex in row i use only rows i and i+1; the last column wraps to the first vertex of row i. |
| GeometryPrimitives.SphereRowBound | projects/PathosEngine/src/pathos/mesh/geometry_primitive.cpp:292-330 | Row i's indices stay below the end of row i+1. |
| GeometryPrimitives.SphereRowsBound | projects/PathosEngine/src/pathos/mesh/geometry_primitive.cpp:290-331 | The first i rows only use vertices of the first i+1 rows. |
| GeometryPrimitives.SphereIndicesInRange | projects/PathosEngine/src/pathos/mesh/geometry_primitive.cpp:274-328 | Every index of a d-division sphere names one of its d² vertices. |
| GeometryPrimitives.SphereRowCells | projects/PathosEngine/src/pathos/mesh/geometry_primitive.cpp:312-328 | Vertex j of row i writes its triangles at slots 6j to 6j+5 of the row. |
| GeometryPrimitives.GenerateSphere | projects/PathosEngine/src/pathos/mesh/geometry_primitive.cpp:265-332 | The buffers are sized for d² vertices, with UVs and normals only when requested; the 2·d·(d−1) triangles of the index buffer are exactly the groups of the first d−1 rows, in order. |
| GeometryPrimitives.WriteSphereRow | projects/PathosEngine/src/pathos/mesh/geometry_primitive.cpp:292-330 | One pass of the inner loop over a row other than the last appends that row's groups and keeps the earlier slots. |
| GeometryPrimitives.WriteSphereQuad | projects/PathosEngine/src/pathos/mesh/geometry_primitive.cpp:314-326 | The six stores of one vertex append its group at slot k. |
| SkyPanorama.IcosahedronSpec | projects/PathosEngine/src/pathos/scene/sky_panorama_component.cpp:13-39 | The base mesh has 20 triangles over corners 0 to 11, and every corner is used. |
| SkyPanorama.SplitTriangle | projects/PathosEngine/src/pathos/scene/sky_panorama_component.cpp:88-102 | Each old triangle is replaced by twelve indices, four triangles. |
| SkyPanorama.Subdivided | projects/PathosEngine/src/pathos/scene/sky_panorama_component.cpp:54-105 | t old triangles give 12t new indices. |
| SkyPanorama.TriangleMidpoints | projects/PathosEngine/src/pathos/scene/sky_panorama_component.cpp:64-86 | Each triangle adds three new positions. |
| SkyPanorama.Midpoints | projects/PathosEngine/src/pathos/scene/sky_panorama_component.cpp:54-105 | t triangles add 3t new positions. |
| SkyPanorama.MidpointsStep | projects/PathosEngine/src/pathos/scene/sky_panorama_component.cpp:60-86 | Storing triangle c's edge midpoints v0-v1, v1-v2 and v2-v0 after the copied positions and the first c triangles' midpoints gives the positions for c + 1 triangles. |
| SkyPanorama.SubdividedStep | projects/PathosEngine/src/pathos/scene/sky_panorama_component.cpp:88-102 | Appending triangle c's split, over midpoints at vertex v + 3c, gives the index buffer for c + 1 triangles. |
| SkyPanorama.SubdividedBound | projects/PathosEngine/src/pathos/scene/sky_panorama_component.cpp:42-105 | If the old indices name old vertices, every new index names one of the v + 3t vertices after subdivision. |
| SkyPanorama.SubdividedChunks | projects/PathosEngine/src/pathos/scene/sky_panorama_component.cpp:88-102 | Old triangle c becomes slots 12c to 12c+11: the corner triangles (i0, i01, i20), (i1, i12, i01), (i12, i2, i20) and the middle triangle (i01, i12, i20). |
| SkyPanorama.MidpointsChunks | projects/PathosEngine/src/pathos/scene/sky_panorama_component.cpp:60-86 | New positions 3c to 3c+2 belong to old triangle c. |
| SkyPanorama.Pow4 | projects/PathosEngine/src/pathos/scene/sky_panorama_component.cpp:7-9 | Powers of four are at least 1. |
| SkyPanorama.SubdivisionCounts | projects/PathosEngine/src/pathos/scene/sky_panorama_component.cpp:42-118 | After n steps there are 20·4^n triangles and 12 + 20·(4^n − 1) vertices, and one more step keeps that form. |
| SkyPanorama.SubdivisionStep | projects/PathosEngine/src/pathos/scene/sky_panorama_component.cpp:41-119 | One round over t triangles adds 3t vertices after the old ones, which stay in place, makes 4t triangles, and keeps every index naming a vertex. |
| SkyPanorama.SubdividedMesh | projects/PathosEngine/src/pathos/scene/sky_panorama_component.cpp:5-11 | n rounds of subdivision of the base icosahedron give 20·4^n triangles over 12 + 20·(4^n − 1) vertices, with every index naming a vertex. |
| SkyPanorama.IcosahedronGeometry.constructor | projects/PathosEngine/src/pathos/scene/sky_panorama_component.cpp:5-11 | The position and index buffers are exactly the base mesh subdivided the given number of times, with 20·4^n triangles and 12 + 20·(4^n − 1) vertices and every index naming a vertex. |
| SkyPanorama.IcosahedronGeometry.BuildGeometry | projects/PathosEngine/src/pathos/scene/sky_panorama_component.cpp:13-39 | Twelve corner positions and the twenty base triangles. |
| SkyPanorama.IcosahedronGeometry.Subdivide | projects/PathosEngine/src/pathos/scene/sky_panorama_component.cpp:41-119 | The vertex count grows by three per triangle and the triangle count is multiplied by four. The new index buffer is the split of every old triangle, and the new positions are the old ones followed by the edge midpoints. Every index stays in range. |
| SkyPanorama.FillSubdivision | projects/PathosEngine/src/pathos/scene/sky_panorama_component.cpp:45-108 | The new position buffer is the old positions followed by every triangle's midpoints, and the new index buffer is the split of every old triangle, filling both buffers exactly, as the two CHECKs demand. |
| SkyPanorama.SubdivideAll | projects/PathosEngine/src/pathos/scene/sky_panorama_component.cpp:54-105 | Over the copied positions, the triangle loop fills the rest of the position buffer with the midpoints and the whole index buffer with the split triangles. |
| SkyPanorama.SubdivideTriangle | projects/PathosEngine/src/pathos/scene/sky_panorama_component.cpp:60-104 | One pass extends the filled prefixes from c triangles to c + 1: three positions at cursor v + 3c and twelve indices at cursor 12c. |
| SkyPanorama.CopyPositions | projects/PathosEngine/src/pathos/scene/sky_panorama_component.cpp:48 | The memcpy: the old positions open the new buffer. |
| SkyPanorama.WriteTriple | projects/PathosEngine/src/pathos/scene/sky_panorama_component.cpp:76-86 | Three midpoints appended at position cursor p. |
| SkyPanorama.WriteSplit | projects/PathosEngine/src/pathos/scene/sky_panorama_component.cpp:88-102 | Twelve indices of a split triangle appended at index cursor q. |
| SkyPanorama.PanoramaSkyComponent.SetTexture | projects/PathosEngine/src/pathos/scene/sky_panorama_component.cpp:137-145 | The texture is stored, and the lighting becomes dirty exactly when it differs from the old one. The base icosahedron is created on the first call and kept after that. |
| SkyPanorama.PanoramaSkyComponent.CreateRenderProxy | projects/PathosEngine/src/pathos/scene/sky_panorama_component.cpp:147-165 | Without valid resources the scene gets no sky. Otherwise the proxy carries the sphere and the texture, and it is dirty only for a dirty component in the main scene, which clears the flag. A scene capture leaves the flag alone. |
| SkyPanorama.PanoramaSkyComponent.Destroy | projects/PathosEngine/src/pathos/scene/sky_panorama_component.cpp:130-135 | The destructor releases the sphere. |
| SkyPanorama.DirtyHandshake | projects/PathosEngine/src/pathos/scene/sky_panorama_component.cpp:137-165 | A new texture reaches the renderer dirty exactly once: a capture scene first sees it clean, then the main scene sees it dirty, then a second main scene sees it clean. |
| SceneProxies.ComparatorIsStrictWeakOrder | projects/PathosEngine/src/pathos/render/scene_proxy.cpp:43-58 | The comparator is irreflexive and transitive, which is what std::sort needs. "Not less" is the lexicographic order on program hash, material instance and solid-before-wireframe, and it is a total preorder. |
| SceneProxies.SortedGroupsPrograms | projects/PathosEngine/src/pathos/render/scene_proxy.cpp:40-63 | In a sorted list the meshes of one program are contiguous. |
| SceneProxies.SortedGroupsInstances | projects/PathosEngine/src/pathos/render/scene_proxy.cpp:49-53 | Within one program, the meshes of one material instance are contiguous. |
| SceneProxies.RoutedMeshes | projects/PathosEngine/src/pathos/render/scene_proxy.cpp:122-133 | Only meshes with a material shader reach either list: translucent ones the translucent list, the other shading models the opaque list. |
| SceneProxies.RoutingPartitions | projects/PathosEngine/src/pathos/render/scene_proxy.cpp:122-133 | Together the two lists hold each shaded mesh exactly once, and meshes without a shader are dropped. |
| SceneProxies.SceneProxy.constructor | projects/PathosEngine/src/pathos/render/scene_proxy.cpp:17-24 | A new scene records its source and has empty proxy lists and no sky, skybox or cloud. |
| SceneProxies.SceneProxy.AddStaticMeshProxy | projects/PathosEngine/src/pathos/render/scene_proxy.cpp:122-133 | A mesh without a material shader is dropped; a translucent one is appended to the translucent list, any other to the opaque list. Nothing else changes. |
| SceneProxies.SceneProxy.FinalizeMainThread | projects/PathosEngine/src/pathos/render/scene_proxy.cpp:40-63 | Each mesh list becomes a sorted permutation of itself; nothing else changes. |
| SceneProxies.SceneProxy.Destroy | projects/PathosEngine/src/pathos/render/scene_proxy.cpp:26-38 | Every proxy list is emptied and the skybox and cloud are cleared; the panorama sky is left as it was. |
| SceneProxies.AddAll | projects/PathosEngine/src/pathos/render/scene_proxy.cpp:122-133 | Adding meshes one by one appends exactly the routed subsequences to the two lists. |
| SceneProxies.BuildFrame | projects/PathosEngine/src/pathos/render/scene_proxy.cpp:40-133 | A frame's meshes, added and finalized, give an opaque list that is a sorted permutation of the shaded non-translucent meshes and a translucent list that is a sorted permutation of the translucent ones. Together they are the shaded meshes. |
| IrradianceVolumes.Work | projects/PathosEngine/src/pathos/scene/irradiance_volume_actor.cpp:60-65 | Phases 0 to 5 capture that cube face of the probe; phase 6 bakes its irradiance. |
| IrradianceVolumes.Trace | projects/PathosEngine/src/pathos/scene/irradiance_volume_actor.cpp:59-75 | k steps of the intended schedule order k pieces of work. |
| IrradianceVolumes.TraceAsWritten | projects/PathosEngine/src/pathos/scene/irradiance_volume_actor.cpp:54-75 | k steps of the loop as written order k pieces of work. |
| IrradianceVolumes.AdvanceClosedForm | projects/PathosEngine/src/pathos/scene/irradiance_volume_actor.cpp:67-74 | The cursor stays on a probe of the volume. After k steps its phase is (phase + k) mod 7 and its probe has moved on by the completed probes, modulo the probe count. |
| IrradianceVolumes.WrapStep | projects/PathosEngine/src/pathos/scene/irradiance_volume_actor.cpp:69-73 | Incrementing and resetting to 0 at the count is the same as counting modulo it. |
| IrradianceVolumes.AdvanceWithinProbe | projects/PathosEngine/src/pathos/scene/irradiance_volume_actor.cpp:67 | Steps that do not finish the probe only advance the phase. |
| IrradianceVolumes.FullProbe | projects/PathosEngine/src/pathos/scene/irradiance_volume_actor.cpp:59-75 | Seven steps from phase 0 capture faces 0 to 5 of the probe, bake it, and move to the next probe, wrapping after the last. |
| IrradianceVolumes.TraceWithinProbe | projects/PathosEngine/src/pathos/scene/irradiance_volume_actor.cpp:59-66 | Within one probe, step j does the work of phase + j on that probe. |
| IrradianceVolumes.SkippedProbeAsWritten | projects/PathosEngine/src/pathos/scene/irradiance_volume_actor.cpp:54-75 | With a 2×2×2 grid (8 probes) and fourteen steps the cursor ends on probe 2, yet every step of the loop as written works on probe 0, so probe 1 is never baked; the intended schedule bakes probe 1. |
| IrradianceVolumes.AllProbesBaked | projects/PathosEngine/src/pathos/scene/irradiance_volume_actor.h:38-39 | Seven steps per probe update the whole volume: 7·N steps of the intended schedule from probe 0, phase 0 bake every one of the N probes and bring the cursor back to probe 0, phase 0. |
| IrradianceVolumes.AllProbesUpTo | projects/PathosEngine/src/pathos/scene/irradiance_volume_actor.cpp:59-75 | After 7·m steps from the start (0 < m ≤ N) every probe below m is baked and the cursor is on probe m, phase 0, or back on probe 0 when m = N. |
| IrradianceVolumes.AdvanceShift | projects/PathosEngine/src/pathos/scene/irradiance_volume_actor.cpp:59-75 | j steps followed by k steps advance the cursor like j + k steps. |
| IrradianceVolumes.TraceShift | projects/PathosEngine/src/pathos/scene/irradiance_volume_actor.cpp:59-75 | The work of j + k steps is the work of j steps followed by the work of k steps from where they ended. |
| IrradianceVolumes.TraceAsWrittenProbe | projects/PathosEngine/src/pathos/scene/irradiance_volume_actor.cpp:54-64 | Every step of the loop as written names the probe of the cursor at entry. |
| IrradianceVolumes.TracesAgreeWithinProbe | projects/PathosEngine/src/pathos/scene/irradiance_volume_actor.cpp:54-75 | While a call stays within one probe, the loop as written and the intended schedule order the same work. |
| IrradianceVolumes.ProbeCoordSpec | projects/PathosEngine/src/pathos/scene/irradiance_volume_actor.cpp:107-114 | The decomposition of a probe index stays inside the grid and rebuilds the index as x + y·gx + z·gx·gy. |
| IrradianceVolumes.ProbeCoordOfPoint | projects/PathosEngine/src/pathos/scene/irradiance_volume_actor.cpp:107-114 | Every grid point is decomposed back from its own index. |
| IrradianceVolumes.IrradianceVolumeActor.constructor | projects/PathosEngine/src/pathos/scene/irradiance_volume_actor.cpp:13-42 | A new volume is uninitialized, holds no tiles and starts at probe 0, phase 0. |
| IrradianceVolumes.IrradianceVolumeActor.InitializeVolume | projects/PathosEngine/src/pathos/scene/irradiance_volume_actor.cpp:13-42 | A second call changes nothing. The first requires min < max and more than one probe on every axis; it records the bounds and the grid and starts at probe 0, phase 0. |
| IrradianceVolumes.IrradianceVolumeActor.UpdateProbesAsWritten | projects/PathosEngine/src/pathos/scene/irradiance_volume_actor.cpp:44-76 | On an atlas in any order, tiles are allocated on first use with the as-written allocation: the volume has tiles exactly when that allocation succeeded, they start where it says, and a failed allocation ends the call with the atlas unchanged and nothing done. Otherwise numSteps steps (none when negative) advance the cursor, and every step names the probe of the cursor at entry. |
| IrradianceVolumes.IrradianceVolumeActor.UpdateProbes | projects/PathosEngine/src/pathos/scene/irradiance_volume_actor.cpp:44-76 | Corrected atlas: as above, but on the sorted atlas of the corrected allocation, but step j works on the probe the cursor is on at step j, which is the intended schedule. |
| IrradianceVolumes.IrradianceVolumeActor.AllocateOnFirstUseAsWritten | projects/PathosEngine/src/pathos/scene/irradiance_volume_actor.cpp:46-52 | On an atlas in any order, a volume without tiles asks for one tile per probe with the as-written allocation and holds tiles exactly when it succeeds, starting at the start it returns; a volume that already holds tiles, or a scene without an atlas, leaves the atlas unchanged. |
| IrradianceVolumes.IrradianceVolumeActor.AllocateOnFirstUse | projects/PathosEngine/src/pathos/scene/irradiance_volume_actor.cpp:46-52 | Corrected atlas: a volume without tiles asks the atlas for one tile per probe; the volume has tiles exactly when that allocation succeeded or it already held them. A volume that already holds tiles allocates nothing. |
| IrradianceVolumes.IrradianceVolumeActor.OnDestroy | projects/PathosEngine/src/pathos/scene/irradiance_volume_actor.cpp:96-105 | A volume with tiles frees exactly the range [first, first + numProbes − 1], and the result says whether the atlas held that range. |
| IrradianceVolumes.UpdateThenDestroy | projects/PathosEngine/src/pathos/scene/irradiance_volume_actor.cpp:44-105 | On an atlas in any order, allocating on the first update (as written) and then destroying the volume gives back exactly what was allocated: the recorded ranges end as they began, as a multiset, in every case. The destroy finds its range exactly when the scene has an atlas and the as-written allocation of one tile per probe succeeded. |
| MeshMaterials.WithLightSpec | projects/PathosEngine/src/pathos/mesh/material.cpp:89-104 | Adding a light keeps the list free of duplicates and leaves the light in the list. The list then holds exactly the old lights plus that one, and grows by one only when the light was new. |
| Sequences.Map | projects/PathosEngine/src/pathos/mesh/material.cpp:51-57 | One entry per element, the i-th computed from the i-th element: the directions, positions and colours of the lights, in list order. |
| MeshMaterials.DirectionalBufferLayout | projects/PathosEngine/src/pathos/mesh/material.cpp:47-59 | Each buffer holds three floats per light, and light i sits at slots 3i to 3i+2 of both buffers. |
| MeshMaterials.PointBufferLayout | projects/PathosEngine/src/pathos/mesh/material.cpp:60-72 | Each buffer holds three floats per light, and light i sits at slots 3i to 3i+2 of both buffers. |
| MeshMaterials.MeshMaterial.constructor | projects/PathosEngine/src/pathos/mesh/material.cpp:12 | A new material has no passes, no lights, empty buffers and a dirty program. |
| MeshMaterials.MeshMaterial.AddPass | projects/PathosEngine/src/pathos/mesh/material.cpp:74-78 | The pass goes last, enabled, and now belongs to this material; the lights and the dirty flag are unchanged. |
| MeshMaterials.MeshMaterial.EnablePass | projects/PathosEngine/src/pathos/mesh/material.cpp:82 | Only pass index's flag is set. |
| MeshMaterials.MeshMaterial.DisablePass | projects/PathosEngine/src/pathos/mesh/material.cpp:83 | Only pass index's flag is cleared. |
| MeshMaterials.MeshMaterial.AddDirectionalLight | projects/PathosEngine/src/pathos/mesh/material.cpp:89-96 | A light already present changes nothing. A new light is appended and marks the program dirty. |
| MeshMaterials.MeshMaterial.AddPointLight | projects/PathosEngine/src/pathos/mesh/material.cpp:97-104 | A light already present changes nothing. A new light is appended and marks the program dirty. |
| MeshMaterials.DirectionalBuffers | projects/PathosEngine/src/pathos/mesh/material.cpp:47-59 | The copy loop yields each directional light's direction and colour as three consecutive entries, in light order. |
| MeshMaterials.PointBuffers | projects/PathosEngine/src/pathos/mesh/material.cpp:60-72 | The copy loop yields each point light's position and colour as three consecutive entries, in light order. |
| MeshMaterials.MeshMaterial.UpdateDirectionalLightBuffer | projects/PathosEngine/src/pathos/mesh/material.cpp:47-59 | The two buffers become the flattened directions and colours of the lights, in order; nothing else changes. |
| MeshMaterials.MeshMaterial.UpdatePointLightBuffer | projects/PathosEngine/src/pathos/mesh/material.cpp:60-72 | The two buffers become the flattened positions and colours of the lights, in order; nothing else changes. |
| MeshMaterials.MeshMaterial.UpdateProgram | projects/PathosEngine/src/pathos/mesh/material.cpp:36-46 | A clean program changes nothing. A dirty one leaves every pass tied to this material, with its geometry kept and its compilers holding exactly the source its own updateProgram generates (cleared first, not appended to). It also rebuilds all four light buffers from the lights and clears the dirty flag; the passes, lights and geometry stay. |
| MeshMaterials.MeshMaterial.RegeneratePasses | projects/PathosEngine/src/pathos/mesh/material.cpp:38-42 | The pass loop: every pass, repeated ones included, ends tied to this material with the source generated for it and its geometry unchanged. |
| MeshMaterials.MeshMaterial.SetGeometry | projects/PathosEngine/src/pathos/mesh/material.cpp:18-23 | The material and every one of its passes now draw the given geometry. Nothing else changes: not the lights, light buffers, pass flags or dirty flag, and not any pass's material or compilers. |
| GameOptions.ClampChoice | projects/Test_RacingGame/src/widget/game_options_widget.cpp:49-51 | The new index moves by delta when that stays inside the choices; otherwise it stops at the first or the last choice. It is always a valid index. |
| GameOptions.PrevItem | projects/Test_RacingGame/src/widget/game_options_widget.cpp:123-126 | Up moves to the previous item, and from the first item it wraps to the last. |
| GameOptions.NextItem | projects/Test_RacingGame/src/widget/game_options_widget.cpp:127-130 | Down moves to the next item, and from the last item it wraps to the first. |
| GameOptions.UpDownInverse | projects/Test_RacingGame/src/widget/game_options_widget.cpp:123-130 | Up and down undo each other. |
| GameOptions.ChoiceControl.constructor | projects/Test_RacingGame/src/widget/game_options_widget.cpp:28-42 | A control starts on its last choice and shows it between arrows. |
| GameOptions.ChoiceControl.ChangeChoice | projects/Test_RacingGame/src/widget/game_options_widget.cpp:49-54 | The selection moves by delta, clamped to the choices, and the content label shows the new choice; the header is untouched. |
| GameOptions.GameOptionsWidget.constructor | projects/Test_RacingGame/src/widget/game_options_widget.cpp:59-107 | The menu has its four items with the first highlighted. The resolution control offers the five presets and starts on the last; the window mode control offers Windowed and Fullscreen and starts on Fullscreen. |
| GameOptions.GameOptionsWidget.ItemFacts | projects/Test_RacingGame/src/widget/game_options_widget.cpp:104 | The four items are the two control headers, Apply and Exit, six distinct labels with the two content labels. |
| GameOptions.GameOptionsWidget.UpdateUI | projects/Test_RacingGame/src/widget/game_options_widget.cpp:149-167 | Exactly the selected item is in the focus colour, together with the content label of a selected control; every other label is in the normal colour. No text changes. |
| GameOptions.GameOptionsWidget.Up | projects/Test_RacingGame/src/widget/game_options_widget.cpp:123-126 | The selection moves to the previous item with wrap-around and the highlight follows it; no choice changes. |
| GameOptions.GameOptionsWidget.Down | projects/Test_RacingGame/src/widget/game_options_widget.cpp:127-130 | The selection moves to the next item with wrap-around and the highlight follows it; no choice changes. |
| GameOptions.GameOptionsWidget.StepChoice | projects/Test_RacingGame/src/widget/game_options_widget.cpp:131-138 | Left or right steps only the control whose header is selected, clamped; the other control keeps its choice. |
| GameOptions.GameOptionsWidget.HandleChoiceControl | projects/Test_RacingGame/src/widget/game_options_widget.cpp:116-121 | A control changes its choice exactly when its header is the selected item. |
| GameOptions.GameOptionsWidget.Confirm | projects/Test_RacingGame/src/widget/game_options_widget.cpp:139-146 | Confirm on Apply applies the options, and on Exit asks to close the menu; on any other item nothing happens. |
| GameOptions.GameOptionsWidget.ApplyCurrentOptions | projects/Test_RacingGame/src/widget/game_options_widget.cpp:169-183 | The chosen resolution is always a preset, so the CHECK holds. The window takes that preset's size and goes fullscreen exactly when the mode chosen is not Windowed. |

## Left out

- GlPrototypes: the header is assumed to be ASCII. `ToLower` and `IsSpace` handle ASCII only, where Rust's `char::to_lowercase` and `str::trim` are Unicode-aware, and the char-sequence model cannot show Rust's panic on slicing off a character boundary. `glcorearb.h` is plain ASCII, so none of this is reached.
- Calls into OpenGL, FreeType and XInput are opaque. Their results enter as parameters: a glyph load that succeeds or fails, a controller's packet number and button mask, query timestamps.
- Floating point is not modelled. Light colours, positions and directions, layout coordinates, xinput analog sticks, triggers and deadzones, and the sky's normal-length CHECK are all left out. Axis values and key multipliers are exact reals, with no rounding.
- Timers, file I/O and logging are left out.
- Threads and locks are left out. Work the render thread would run through ENQUEUE appears as a returned command list or result. A returned command holds the values it captured; the one capture by pointer that changes the outcome, the cube views in `destroyResources`, is modelled through an explicit on-render-thread flag in DestroyResourcesAsWritten and in RespecTextureAsWritten, which calls it (see Findings), and the other pointer captures only receive names the render thread writes, which TexturesCreated and TextureCreated model. The `isInRenderThread` CHECKs of the GPU counters are not modelled.
- GpuCounters.GpuCounterContext.FlushQueries: the GPU timestamps are parameters, and elapsed time is whole nanoseconds rather than float milliseconds.
- Integer widths: the model uses unbounded integers. The uint32 overflow of vertex and index counts in the geometry generators and the int32 overflow of the option indices are not modelled.
- `sky_panorama_component.h`, `malloc_emulator.h`, `game_options_widget.h`, `gl_live_objects.h` and `gl_debug_group.h` are not part of this model. As a result, the sky component's `hasValidResources` and the initial value of its dirty flag are parameters.
- LiveObjects: `memreport` is left out because it queries GL for texture sizes. Only the id sets, their total and the format byte table are modelled.
- SceneProxies: `scene_proxy.h` declares an older set of proxy lists than `scene_proxy.cpp` uses. The model follows the `.cpp`. `createViewDependentRenderProxy`, `checkFrustumCulling` and `overrideSceneRenderSettings` are not modelled.
- GeometryPrimitives: the smoothed cube's tables of positions, uvs and normals are float data, so only the unsmoothed index buffer is modelled.
- GeometryPrimitives.GenerateSphere: the source also runs the last row's column loop, with every index store skipped. The model leaves that empty pass out.
- IrradianceTiles: `allocateIrradianceTiles` in `image_based_lighting.cpp` returns an `IrradianceProbeID` holding `firstTileID` and `firstShIndex`, while `irradiance_volume_actor.cpp` stores its result in a single `uint32 irradianceTileFirstID` compared with INVALID_TILE_ID. The model follows the actor's single-id interface: the allocation returns the first tile only, and `firstShIndex` is not modelled.
- IrradianceTiles.LightProbeScene.AllocateTiles: requires n > 0. For n = 0 the source computes `begin + n - 1` in uint32, and that wrap-around is not modelled.
- IrradianceTiles.LightProbeScene.AllocateTilesAsWritten: requires n > 0, for the same reason.
- IrradianceVolumes.IrradianceVolumeActor.UpdateProbesAsWritten: requires an initialized volume, for the same reason as UpdateProbes below.
- IrradianceVolumes.IrradianceVolumeActor.UpdateProbes: runs on the corrected atlas. It allocates through the corrected AllocateTiles, so it requires the sorted, disjoint list of ranges that only that allocation keeps; UpdateProbesAsWritten covers the source's unsorted list.
- IrradianceVolumes.IrradianceVolumeActor.AllocateOnFirstUse: runs on the corrected atlas, for the same reason; AllocateOnFirstUseAsWritten covers the source's unsorted list.
- IrradianceVolumes.IrradianceVolumeActor.UpdateProbes: also requires an initialized volume. The source does not check this. An uninitialized volume has zero probes, and its tile request for zero probes hits the uint32 wrap-around that AllocateTiles leaves out.
- IrradianceVolumes: `createRenderProxy`, `hasLightingData`, `onSpawn`, the scene unregistration, the GL work of `captureFace` and `bakeIrradiance`, and the float `getProbeLocationByCoord` are not modelled.
- MeshMaterials.MeshMaterial.UpdateProgram: each pass's own virtual `updateProgram` is not modelled. That covers the shader source it generates (its `inVar`, `uniform`, light-count and `mainCode` calls) and its `createProgram`. The generated vertex and fragment lines are a parameter, one entry per pass, and the model promises only that each pass's compilers end holding exactly them.
- MeshMaterials.MeshMaterial.RegeneratePasses: the same; the generated source is a parameter.
- MeshMaterials: the render-pass protocol is not modelled. That covers `activate`, `render` and `deactivatePass`, and the model/eye/view-projection matrix setters. Lights are constant values.
- GameOptions:
  - the label colours before the first `updateUI` are not modelled;
  - the owner world's close callback is a returned `closeRequested` flag;
  - the resolution strings are constants instead of `swprintf` output;
  - `createUI` layout and `bindInput` key bindings are not modelled.
- RenderCommandLists: the packet payloads and `allocateSingleFrameMemory` are not modelled. Recorded commands are opaque values, and deferred cleanup entries are ids. The CHECKF on list growth during execution is not modelled.
- RenderTargets: debug names and labels, `immediateUpdateResource(s)` and `isTextureValid` are not modelled.
- Malloc.Free: this is the corrected `deallocate`. Its pointer walk and its explicit merge loop are modelled as one recursive function. It descends into the child whose range holds the offset, frees the allocation, then merges with free leaves only on the way back up. The lookup and both merge branches as written differ from it on reachable inputs, as the Findings rows on malloc_emulator.cpp:60-75, 115-141 and 142-168 show. The node-by-node pointer updates are not modelled.
- Malloc.FreeSpec: states the success condition and the allocations of the corrected `deallocate`. As written, deallocate(5) on the tree of LostAllocationTreeReachable ends in CHECK_NO_ENTRY, and deallocate(30) on the tree of StretchTreeReachable breaks the topology.
- Malloc.MergeRightKeepsAllocations: states the corrected right-child merge, which joins free leaves only. As written, the branch at malloc_emulator.cpp:143-155 also takes over a split `parent->left->right` and breaks the topology (MergeRightAsWrittenBreaksTopology).
- Malloc.MallocEmulator.Deallocate: the new tree is the corrected Free, not the tree the source computes with its lookup and merges as written.
- FontCache.FontTextureCache.GetGlyph: calls the corrected insert. In the source a failed load loses the taken cell, as InsertAsWritten, GetGlyphAsWritten and LostCellAsWritten show.
- RenderTargets.RenderTargetCube.RespecTexture: uses the corrected capture. As written, a respecification made off the render thread queues the deletion of the old views under six zero names; RespecTextureAsWritten and DeferredRespecLeaksViews model that.
- InputManagers:
  - `getAxis` is left out, because it dereferences a lookup without checking it;
  - `tick` and `bindXInput` are left out, because they forward to XInput and the timers.
- ShaderSources: the vertex source's flag and location setters are plain field stores and are not modelled. The tessellation shader sources are left out because they only throw "not implemented".
- MaterialAssembler.MakeConstantParameterDesc: only the classification of a parameter's type name is modelled, not the `sscanf` parse of the parameter line.
- Console: the model follows `console.cpp`. The `console.h` in the tree declares a newer console (`currentInput`, `inputHistory`, `addLine(..., addToHistory)`) that `console.cpp` does not implement, so input history is not modelled.
- Console.ConsoleWindow.AddLine: evaluates the wide text as is. The CP_ACP conversion before `evaluate` is taken as the identity, so the remapping of codes 128-255 by the system code page is not modelled. The narrow `addLine(const char*)` overload, which converts through MultiByteToWideChar, is not modelled either.
- Console.ConsoleWindow.OnKeyPress: inherits the same code-page simplification through AddLine.
- Console: rendering is not modelled, and text labels are plain strings. The engine's GLUT callbacks other than the key map (display, reshape, mouse) are left out.

## Findings

| source | as written | input that shows it | evidently intended | confidence | as-written member | corrected member |
|---|---|---|---|---|---|---|
| projects/PathosEngine/src/pathos/util/malloc_emulator.cpp:60-75 | `deallocate` looks for the node by offset. On an equal offset it goes left, and on a larger offset it always goes right, so an allocation inside a left subtree can be missed. | 100 bytes; allocate 10, allocate 10, deallocate 0, allocate 5, allocate 5. The tree is then `Split(0,100, Split(0,10, [0,5) res, [5,10) res), ...)`, and deallocate(5) does not find [5,10). | Descend into the child whose range holds the offset. | not executed | Malloc.LookupAsWrittenMissesAllocation | Malloc.LookupComplete |
| projects/PathosEngine/src/pathos/util/malloc_emulator.cpp:115-141 | `merge` of a freed left child takes over the sibling's left part whenever it is not resident, even when that part is itself split. It rewrites only that node's range and leaves its children in place. | Freeing [0,10) in `Split(0,100, [0,10) res, Split(10,90, Split(10,10, ...), ...))` gives a tree that fails the topology invariants. | Merge only with a free leaf. | not executed | Malloc.MergeAsWrittenBreaksTopology | Malloc.MergeLeftKeepsAllocations |
| projects/PathosEngine/src/pathos/util/malloc_emulator.cpp:142-168 | `merge` of a freed right child, the mirror image: it takes over the sibling's right part whenever it is not resident, even when that part is itself split, and rewrites only that node's byte count. | 100 bytes; allocate 30, allocate 70, deallocate 0, allocate 10, allocate 10. The tree is then `Split(0,100, Split(0,30, [0,10) res, Split(10,20, [10,10) res, [20,10) free)), [30,70) res)`, and deallocate(30) stretches `Split(10,20)` to 90 bytes over children covering 20. | Merge only with a free leaf. | not executed | Malloc.MergeRightAsWrittenBreaksTopology | Malloc.MergeRightKeepsAllocations |
| projects/PathosEngine/src/badger/system/mem_alloc.h:155-161 | `getElement(ix)` addresses slot (head + ix) mod maxCount even before the ring has wrapped, when the oldest element is in slot 0. | A ring of 3 after one `alloc`: the element is in slot 0, but `getElement(0)` names slot 1. | Address the ix-th oldest live element. | not executed | MemAlloc.RingFirstElementAsWritten | MemAlloc.RingFirstElement |
| projects/PathosEngine/src/pathos/render/image_based_lighting.cpp:64-81 | The first-fit scan walks an unsorted list of ranges and stops at the first one that does not overlap. A range later in the list can still overlap the candidate. | 8 tiles; allocate 2, allocate 2, free the first range, allocate 1, allocate 1. Both single allocations get tile 0. | The candidate run overlaps no live range. | not executed | IrradianceTiles.AllocateAsWrittenSharesTile | IrradianceTiles.LightProbeScene.AllocateTiles |
| projects/PathosEngine/src/pathos/render/shader.cpp:350-352 | The default `GeometryShaderSource()` constructs a temporary object instead of delegating, so this object's fields are left unset. | A default-constructed geometry source: `getCode` prints empty primitive names and an indeterminate vertex count. | Set triangles in, triangle strips out, and at most 3 vertices, as the temporary's arguments say. | not executed | ShaderSources.DefaultGeometryAsWritten | ShaderSources.DefaultGeometry |
| projects/PathosEngine/src/pathos/input/input_manager.cpp:134-153 | `unbind*` erases only the event's handler map entry, and the bindings still name the event. | Bind a pressed event to a key, unbind it, and press the key: the handler lookup fails the CHECK at line 186. After `unbindAxis`, the next `updateAxisValue` puts the axis entry back (line 119). | Also drop the event's bindings. | not executed | InputManagers.UnbindAsWrittenFailsCheck | InputManagers.InputManager.UnbindButtonPressed |
| projects/PathosEngine/src/pathos/text/font_texture_cache.cpp:93-95 | When a glyph fails to load, the cell just taken from the unused or used list is returned to neither list. | A 1×1 grid and one failed load: afterwards the cache has no cells at all. | Put the cell back on the unused list. | not executed | FontCache.LostCellAsWritten | FontCache.KeptCell |
| projects/PathosEngine/src/pathos/scene/irradiance_volume_actor.cpp:54-75 | Every step of one `updateProbes` call uses the probe index read at entry, even after the phase loop has moved the cursor to the next probe. | A 2×2×2 grid (8 probes) and 14 steps per call: the cursor ends on probe 2, but all 14 steps work on probe 0, so probe 1 is never captured or baked. | Re-read the probe index at each step. | not executed | IrradianceVolumes.SkippedProbeAsWritten | IrradianceVolumes.AllProbesBaked |
| projects/PathosEngine/src/pathos/render/render_target.cpp:248-262 | `destroyResources` captures the view handles by pointer to the member array and then zeroes that array. A command deferred to the render thread runs later and deletes six zero names, so the views leak; only a call made on the render thread runs before the zeroing. | A cube whose render thread named it 1 and its views 2 to 7; `destroyResources` called off the render thread queues deletion of [1] and then of [0, 0, 0, 0, 0, 0]; `respecTexture` calls it, so a respecification off the render thread does the same (DeferredRespecLeaksViews). | Capture the six view names by value, as the cube name is. | not executed | RenderTargets.DeferredDestroyLeaksViews | RenderTargets.DestroyDeletesViews |
