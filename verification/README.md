# Geometry stage: pipeline state key and constant registers

This project models two small pieces of SwiftShader's geometry stage in Dafny and proves properties of them.

**The pipeline state key** (`src/Device/GeometryProcessor.hpp`, `src/Device/GeometryProcessor.cpp`).
`States` is a zero-filled value record. It holds:
- the bound geometry shader's serial id;
- one `Input {format, attribType}` per interface slot (`MAX_INTERFACE_COMPONENTS / 4` of them);
- two 1-bit flags, `robustBufferAccess` and `isPoint`.

`State` adds a 32-bit hash. `update` derives a `State` from the rendering context. `computeHash` XOR-folds the 32-bit words of the `States` part.

The model has three parts:
- module `DeviceStates` holds the record as datatypes, with an explicit encoding of its storage as 32-bit words and a decoding back;
- module `DeviceGeometryProcessor` holds `ComputeHash` and `Update` as methods with loops;
- `Update` is proved against the predicate `DerivedFrom`, and the hash against the function `XorFold`.

**The constant register file** (`src/Renderer/GeometryProcessor.hpp`, `src/Renderer/GeometryProcessor.cpp`).
It is a class with three arrays:
- `c`: `VERTEX_UNIFORM_VECTORS + 1` float4 rows. The last row is reserved and must hold `{0, 0, 0, 0}`.
- `i`: 16 int4 rows.
- `b`: 16 booleans.

Three setters write one row or entry each, under an index guard. Module `RendererGeometryProcessor` models this as the class `GeometryProcessor`, with `array2`/`array` fields and a `Valid()` invariant that includes the zero reserved row. Each setter is proved against a pure update function (`SetFloat`, `SetInteger`, `SetBoolean`) on the value `Registers`. The lemmas beside them cover what each write changes, idempotence, independence of distinct rows and preservation of the reserved row.

Constants defined in headers that are not part of this model are fixed as follows:
- `MAX_INTERFACE_COMPONENTS` = 32 × 4;
- `ATTRIBTYPE_LAST` = 2, on the assumption that it aliases the last real class, uint (float, int and uint are 0 to 2; unused is 3);
- `VERTEX_UNIFORM_VECTORS` = 259.

No proof depends on these exact values except the width of `attribType`. `AttribFieldWide` shows that the width is 2 bits whether `ATTRIBTYPE_LAST` is 2 or 3, and that 2 bits hold every class, unused included.

A key hash is often expected to be order-sensitive and to change whenever any field changes. The XOR fold in `computeHash` is neither, and the model proves both sides:
- `ShaderIdCollision` and `SlotSwapCollision` show two different keys with equal hashes;
- `FormatChangeChangesHash`, `AttribChangeChangesHash`, `FlagChangeChangesHash` and `ShaderIdHalfChangeChangesHash` show what does hold: changing one slot's format, one slot's attribute class, one flag, or the shader id within only one of its 32-bit halves always changes the hash.

## Model

| member | source | states |
|---|---|---|
| DeviceStates.Bits | src/Device/GeometryProcessor.hpp:60 | `BITS(x)` is the least width n with x < 2^n |
| DeviceStates.AttribFieldWide | src/Device/GeometryProcessor.hpp:60 | `BITS(ATTRIBTYPE_LAST)` is 2 whether `ATTRIBTYPE_LAST` is uint (2) or unused (3), and the 4 values of the 2-bit field hold every attribute class |
| DeviceStates.StoreAttribType | src/Device/GeometryProcessor.cpp:62 | storing a shader attribute class into the 2-bit field keeps its value, with no truncation |
| DeviceStates.Input.Present | src/Device/GeometryProcessor.hpp:54-57 | a slot is present iff its format is not `VK_FORMAT_UNDEFINED`; a zero-filled slot is never present |
| DeviceStates.ZeroStates | src/Device/GeometryProcessor.hpp:44-46 | the zero-filling constructor gives a record whose every storage word is 0 |
| DeviceStates.ZeroStorageIsZeroStates | src/Device/GeometryProcessor.hpp:44-65 | all-zero storage holds exactly when the record is the zero-filled one; that record has shader id 0, no slot present, every `attribType` 0 and both flags clear |
| DeviceStates.Encode | src/Device/GeometryProcessor.hpp:50-65 | the `States` part is `sizeof(States)/4` = 2 × slots + 4 words; the `hash` word is not among them |
| DeviceStates.EncodeSlot | src/Device/GeometryProcessor.hpp:52-63 | slot k's format and attribute class sit in words 2+2k and 3+2k of the storage |
| DeviceStates.SlotPresentIffFormatWord | src/Device/GeometryProcessor.hpp:54-59 | slot k is present iff its format word 2+2k in the storage is nonzero |
| DeviceStates.DecodeEncode | src/Device/GeometryProcessor.hpp:50-65 | every field of the record (id, each slot, each flag) can be read back from its storage |
| DeviceStates.EncodeInjective | src/Device/GeometryProcessor.hpp:42-66 | two records have equal storage if and only if they are equal field by field |
| DeviceGeometryProcessor.ComputeHash | src/Device/GeometryProcessor.cpp:21-32 | the result is the XOR of every 32-bit word of the `States` storage, in order |
| DeviceGeometryProcessor.XorFoldOfZeros | src/Device/GeometryProcessor.cpp:24-29 | folding only zero words gives 0 |
| DeviceGeometryProcessor.XorFoldUpdate | src/Device/GeometryProcessor.cpp:26-29 | replacing one word changes the fold by exactly the old word XOR the new word |
| DeviceGeometryProcessor.ZeroStatesHash | src/Device/GeometryProcessor.cpp:21-32 | a zero-filled record hashes to 0 |
| DeviceGeometryProcessor.HashSeparatesOneWord | src/Device/GeometryProcessor.cpp:21-32 | records whose storage differs in exactly one word have different hashes |
| DeviceGeometryProcessor.EncodeWithFormat | src/Device/GeometryProcessor.cpp:59 | writing one slot's format changes exactly that slot's format word of the storage |
| DeviceGeometryProcessor.HashWithFormat | src/Device/GeometryProcessor.cpp:21-32 | writing one slot's format changes the hash by the old format XOR the new one |
| DeviceGeometryProcessor.FormatChangeChangesHash | src/Device/GeometryProcessor.cpp:21-32 | changing only one slot's format always changes the hash |
| DeviceGeometryProcessor.FlagChangeChangesHash | src/Device/GeometryProcessor.cpp:21-32 | flipping only `robustBufferAccess`, or only `isPoint`, always changes the hash |
| DeviceGeometryProcessor.AttribChangeChangesHash | src/Device/GeometryProcessor.cpp:21-32 | changing only one slot's attribute class always changes the hash |
| DeviceGeometryProcessor.ShaderIdHalfChangeChangesHash | src/Device/GeometryProcessor.cpp:21-32 | changing the shader id to a different id that shares its low or its high 32-bit half always changes the hash |
| DeviceGeometryProcessor.ShaderIdCollision | src/Device/GeometryProcessor.cpp:21-32 | a shader id whose two 32-bit halves are equal cancels out: shader ids 0 and 0x100000001 give different keys with the same hash |
| DeviceGeometryProcessor.HashWithTwoFormats | src/Device/GeometryProcessor.cpp:21-32 | writing two different slots' formats changes the hash by both old and new formats |
| DeviceGeometryProcessor.SlotSwapCollision | src/Device/GeometryProcessor.cpp:21-32 | exchanging the formats of two slots gives a different key with the same hash, so the fold is not order-sensitive |
| DeviceGeometryProcessor.GeometryProcessor.SetRoutineCacheSize | src/Device/GeometryProcessor.cpp:42-45 | `setRoutineCacheSize` is unimplemented: it leaves the processor unchanged, whatever the size |
| DeviceGeometryProcessor.Update | src/Device/GeometryProcessor.cpp:47-68 | the returned key satisfies `DerivedFrom`. With no shader bound, the record is zero-filled and the hash is 0. With a shader bound, the record holds the shader's serial id and the context's robustness flag, `isPoint` iff the topology is a triangle list, and for every slot k the context's format k with the attribute class of shader input 4k. The hash is always the hash of the returned fields, so it is never stale. Slot k is present iff a shader is bound and the context's stream k has a format |
| DeviceGeometryProcessor.DerivedFromUnique | src/Device/GeometryProcessor.cpp:47-68 | a context admits exactly one key, so `update` is deterministic: equal contexts give equal records and equal hashes |
| DeviceGeometryProcessor.UnboundShaderKey | src/Device/GeometryProcessor.cpp:49-65 | with no geometry shader bound, the key has hash 0, shader id 0, both flags false, and every slot has format `VK_FORMAT_UNDEFINED` and attribute class 0 |
| DeviceGeometryProcessor.Equals | src/Device/GeometryProcessor.hpp:67-72 | key equality never equates keys whose fields differ, whatever the hash words hold; for keys whose hash is not stale, it is exactly equality of keys |
| RendererGeometryProcessor.SetFloat | src/Renderer/GeometryProcessor.cpp:32-43 | a float write keeps the array shapes and leaves `i` and `b` alone; the reserved row is zero afterwards iff it was zero before |
| RendererGeometryProcessor.SetInteger | src/Renderer/GeometryProcessor.cpp:45-56 | an integer write keeps the array shapes and leaves `c` and `b` alone |
| RendererGeometryProcessor.SetBoolean | src/Renderer/GeometryProcessor.cpp:58-66 | a boolean write keeps the array shapes and leaves `c` and `i` alone |
| RendererGeometryProcessor.SetFloatEffect | src/Renderer/GeometryProcessor.cpp:32-43 | for `index < VERTEX_UNIFORM_VECTORS`, row `index` becomes the four given floats. Every other row is unchanged. A larger index changes nothing. The reserved row `c[VERTEX_UNIFORM_VECTORS]` is never written |
| RendererGeometryProcessor.SetIntegerEffect | src/Renderer/GeometryProcessor.cpp:45-56 | for `index < 16`, row `index` of `i` becomes the four given ints and every other row is unchanged; a larger index changes nothing |
| RendererGeometryProcessor.SetBooleanEffect | src/Renderer/GeometryProcessor.cpp:58-66 | for `index < 16`, `b[index]` becomes `boolean != 0` and every other entry is unchanged; a larger index changes nothing |
| RendererGeometryProcessor.SettersIdempotent | src/Renderer/GeometryProcessor.cpp:32-66 | repeating any setter with the same arguments leaves the same registers |
| RendererGeometryProcessor.SetFloatCommutes | src/Renderer/GeometryProcessor.cpp:32-43 | float writes to two different rows give the same registers in either order |
| RendererGeometryProcessor.AsWrittenReservedRowNotZero | src/Renderer/GeometryProcessor.cpp:20-24 | the constructor as written leaves the reserved row as the memory held it, which can be nonzero |
| RendererGeometryProcessor.GeometryProcessor.Contents | src/Renderer/GeometryProcessor.hpp:34-37 | the arrays read as a value have the declared shapes and a zero reserved row |
| RendererGeometryProcessor.GeometryProcessor.constructor | src/Renderer/GeometryProcessor.cpp:20-24 | the constructor stores `context` (a `const` field, never reassigned), allocates `c` with `VERTEX_UNIFORM_VECTORS + 1` rows of 4, `i` with 16 rows of 4 and `b` with 16 entries, and zeroes the reserved row |
| RendererGeometryProcessor.GeometryProcessor.SetFloatConstant | src/Renderer/GeometryProcessor.cpp:32-43 | only `c` may change, and it changes to `SetFloat` of the old registers; the invariant, including the zero reserved row, is kept; an index `>= VERTEX_UNIFORM_VECTORS` is reported as `OutOfRange` |
| RendererGeometryProcessor.GeometryProcessor.SetIntegerConstant | src/Renderer/GeometryProcessor.cpp:45-56 | only `i` may change, and it changes to `SetInteger` of the old registers; an index `>= 16` is reported as `OutOfRange` |
| RendererGeometryProcessor.GeometryProcessor.SetBooleanConstant | src/Renderer/GeometryProcessor.cpp:58-66 | only `b` may change, and it changes to `SetBoolean` of the old registers; an index `>= 16` is reported as `OutOfRange` |

## Left out

- `GeometryProcessor::routine` (src/Device/GeometryProcessor.cpp:70-89) generates code through the Reactor JIT backend, a foreign code generator. The routine cache it would consult is commented out.
- src/Pipeline/GeometryRoutine.cpp, src/Pipeline/GeometryRoutine.hpp and src/Pipeline/GeometryProgram.hpp are not part of this model. They are scaffolding for generated code, and the body of `generate` is commented out.
- src/GLES2/libGLESv2/Program.h is not part of this model. It holds declarations only.
- The routine cache, eviction, thread safety, format decoding, primitive assembly and projection are not modelled. The code in these files does not implement them.
- The exact byte layout of `States` is chosen by the compiler. The model fixes one layout: the id, then (format, attribute unit) per slot, then a flags unit and tail padding, little-endian with 8-byte alignment. The layout is stated once, in `Encode`.
- `State::operator==` has only a declaration in these files. `Equals` models it as the comparison the key's design requires: the hash as a filter first, then the whole storage of `States`.
- The Device processor's constructor is modelled as an empty constructor of `DeviceGeometryProcessor.GeometryProcessor`; it has nothing to state, so it has no row. The Device and Renderer destructors do nothing and are not modelled.
- Headers that define the context, the shader and the configuration constants (Context.hpp, SpirvShader.hpp, the configuration header) are not part of this model. `Context` and `Shader` keep only the fields `update` reads.
- `ASSERT(false)` aborts only in debug builds. The setters model it as an `OutOfRange` outcome after which nothing was written, which is what a release build does.
- Floats are carried as their 32-bit patterns. No float arithmetic is modelled, because the setters only copy floats.
- Setter indices are `unsigned int` in the source and `nat` in the model. Every `unsigned int` value is a `nat`, and the guards compare the same way.
- The setters read four elements through `const float value[4]` and `const int integer[4]`. The model requires a sequence of exactly four elements.

## Findings

| source | as written | input that shows it | evidently intended | confidence | as-written member | corrected member |
|---|---|---|---|---|---|---|
| src/Renderer/GeometryProcessor.cpp:20-24 | the constructor initialises only `context`; nothing ever writes the reserved row `c[VERTEX_UNIFORM_VECTORS]` | an object constructed in memory whose reserved row holds {1, 0, 0, 0} keeps that row | the reserved row holds {0, 0, 0, 0}, as the declaration at src/Renderer/GeometryProcessor.hpp:35 says | medium, not executed | RendererGeometryProcessor.AsWrittenReservedRowNotZero | RendererGeometryProcessor.GeometryProcessor.constructor |
