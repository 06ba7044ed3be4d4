# Dolphin OGL vertex manager and patch-type widths, in Dafny

This project models two pieces of the Dolphin emulator.

**The OpenGL backend's vertex manager** (`OGL::VertexManager`). For each batch of decoded geometry it does the following:
- It opens a write window on a vertex streaming buffer and one on an index streaming buffer (`ResetBuffer`).
- It remembers the window's base vertex and index byte offset (`s_baseVertex`, `s_index_offset`).
- At flush time it commits exactly the bytes the index generator reports (`PrepareDrawBuffers`).
- It binds the format's vertex array object unless it is the one bound last (`m_last_vao`).
- It selects a shader variant from `useDstAlpha` and dual-source-blend support.
- It issues one indexed draw (`Draw`).
- When destination alpha is wanted but dual-source blending is missing, it issues a second, alpha-only draw with blending off. It then restores the renderer's colour mask and the blending the blend mode asks for.

The model is the class `OGL.VertexManager`:
- The file statics and members are fields.
- Each source function is a method that changes them step by step.
- Every GL or shader-cache call it makes is appended to an event log (`GLDevice.DeviceEvent`) and applied to a device record: bound VAO, current program, colour mask and GL_BLEND.
- `GLDevice.Replay`, `Issued`, `Shaders` and `Binds` read a log back as a final state, a list of draws with the state each ran under, the programs selected, and the number of binds.
- The streaming buffers are the class `Streaming.StreamBuffer`. They are seen only through `Map` and `Unmap`, and they record every committed size.

**The patch engine's header** (`PatchEngine.h`):
- the `PatchType` enum,
- the `PatchEntry` record and its three-argument constructor,
- `GetPatchTypeCharLength`.

The character length is proved to be the exact hexadecimal width of a value of that patch width.

Integer widths are explicit:
- The two size products of `PrepareDrawBuffers` are u32 (`OGL.U32`, reduction modulo 2^32).
- The `(GLint)` cast of the base vertex is a two's-complement truncation (`OGL.ToGLint`).
- `PatchType` is an integer type, so values that name no enumerator exist, as they can in C++.

## Model

| member | source | states |
|---|---|---|
| OGL.U32 | Source/Core/VideoBackends/OGL/VertexManager.cpp:83-84 | a u32 product is below 2^32 and is the exact product when that fits |
| OGL.CommitSizesExact | Source/Core/VideoBackends/OGL/VertexManager.cpp:83-84 | when the batch fits its windows, the u32 sizes equal numVerts*stride and indexLen*2 exactly |
| OGL.VertexManager.PrepareDrawBuffers | Source/Core/VideoBackends/OGL/VertexManager.cpp:81-91 | each buffer's mapped region is committed with the u32 vertex size and index size (u16 indices) respectively, nothing stays mapped, and both byte counters grow by those sizes |
| Streaming.StreamBuffer.Unmap | Source/Core/VideoBackends/OGL/VertexManager.cpp:86-87 | committing records exactly the size passed and closes the mapped region |
| Streaming.StreamBuffer.Map | Source/Core/VideoBackends/OGL/VertexManager.cpp:95-100 | mapping returns the placement's pointer and offset, leaves a region of the requested size open and commits nothing |
| OGL.VertexManager.ResetBuffer | Source/Core/VideoBackends/OGL/VertexManager.cpp:93-103 | current pointer = base pointer = mapped pointer, the window ends MAXVBUFFERSIZE bytes later, the base vertex is the mapped offset divided by the stride, the index destination and index offset are the index map's pointer and offset, both windows are open, and nothing else changes |
| OGL.BaseVertexAddressesWindow | Source/Core/VideoBackends/OGL/VertexManager.cpp:98 | for a stride-aligned offset, vertex i of the batch addressed from the base vertex lies inside the committed window |
| OGL.PrimitiveMode | Source/Core/VideoBackends/OGL/VertexManager.cpp:111-122 | points go to GL_POINTS and lines to GL_LINES; triangles go to GL_TRIANGLE_STRIP exactly when primitive restart is supported and to GL_TRIANGLES exactly when it is not |
| OGL.PrimitiveModeKeepsTopology | Source/Core/VideoBackends/OGL/VertexManager.cpp:111-122 | the GL primitive chosen always draws the emulated primitive kind, whatever the restart flag |
| OGL.ToGLint | Source/Core/VideoBackends/OGL/VertexManager.cpp:125 | the cast lands in the int32 range and keeps every value below 2^31 |
| OGL.DrawCoversCommittedWindow | Source/Core/VideoBackends/OGL/VertexManager.cpp:105-128 | the draw starts at 0; its count and end cover exactly the committed index and vertex bytes; it reads from the window's index offset; it carries the base vertex if and only if base-vertex draws are supported |
| OGL.VertexManager.Draw | Source/Core/VideoBackends/OGL/VertexManager.cpp:105-130 | exactly one draw is logged (start 0, end numVerts, count indexLen, the window's index offset, the base vertex only when supported), the device is untouched and the draw counter grows by one |
| OGL.VertexManager.BindVertexFormat | Source/Core/VideoBackends/OGL/VertexManager.cpp:137-140 | a bind is logged only when the format's VAO differs from the remembered one; afterwards that VAO is bound and remembered |
| OGL.FlushBinds | Source/Core/VideoBackends/OGL/VertexManager.cpp:137-140 | a whole flush binds no VAO when the remembered one matches and exactly one otherwise |
| OGL.RepeatedFlushBindsOnce | Source/Core/VideoBackends/OGL/VertexManager.cpp:137-140 | two flushes with the same format bind at most once between them |
| OGL.FirstPassShader | Source/Core/VideoBackends/OGL/VertexManager.cpp:146-165 | the first-pass variant is DUAL_SOURCE_BLEND exactly when dual-source blending is supported and destination alpha is wanted, and NONE otherwise |
| OGL.VertexManager.FirstPass | Source/Core/VideoBackends/OGL/VertexManager.cpp:145-175 | the log gains program selection, constant upload, vertex pointer setup and the draw, in that order; the device's program is the first-pass variant; one draw is counted |
| OGL.FirstPassIssued | Source/Core/VideoBackends/OGL/VertexManager.cpp:149-175 | the first pass issues exactly one draw, under the first-pass program with mask and blending as they were |
| OGL.VertexManager.AlphaPass | Source/Core/VideoBackends/OGL/VertexManager.cpp:178-194 | the log gains the alpha-pass program, the alpha-only mask, blending off, the draw, the renderer's mask, and blending on only when blendenable or subtract; the device ends with that mask and blending; one draw is counted |
| OGL.AlphaPassIssued | Source/Core/VideoBackends/OGL/VertexManager.cpp:180-187 | the alpha pass issues exactly one draw, under the ALPHA_PASS program, writing alpha only, with blending off |
| OGL.AlphaPassReplay | Source/Core/VideoBackends/OGL/VertexManager.cpp:180-194 | after the alpha pass the renderer's colour mask is current and GL_BLEND is on exactly when blendenable or subtract |
| OGL.FlushIssuedDraws | Source/Core/VideoBackends/OGL/VertexManager.cpp:137-194 | a flush issues one draw, or two identical draws exactly when destination alpha is wanted without dual-source support; the second runs with ALPHA_PASS, alpha-only writes and blending off |
| OGL.FlushShaders | Source/Core/VideoBackends/OGL/VertexManager.cpp:149-194 | a flush selects the first-pass variant, then ALPHA_PASS exactly when the fallback pass runs |
| OGL.FlushFinalState | Source/Core/VideoBackends/OGL/VertexManager.cpp:137-194 | after a flush the format's VAO is bound and the last program selected is current; mask and blending are restored as the blend mode asks after a fallback pass and are untouched without one |
| OGL.VertexManager.Flush | Source/Core/VideoBackends/OGL/VertexManager.cpp:132-229 | the log gains the flush's events; the device is their replay; the VAO is remembered; each buffer commits the batch's exact bytes; one or two draws are counted by branch; iSaveTargetId and the EFB-cache clear count each grow by exactly one whatever the branch |
| OGL.VertexManager.constructor | Source/Core/VideoBackends/OGL/VertexManager.cpp:57-67 | both streaming buffers are new and empty, nothing is mapped, the remembered VAO is 0 and the counters are zero |
| PatchEngine.MakePatchEntry | Source/Core/Core/PatchEngine.h:24 | the constructor stores type, address and value unchanged |
| PatchEngine.PatchTypeCharLength | Source/Core/Core/PatchEngine.h:46-64 | the length is 2, 4 or 8; 2 exactly for PATCH_8BIT, 4 exactly for PATCH_16BIT, 8 for PATCH_32BIT and for every value outside the enum |
| PatchEngine.CharLengthIsHexWidth | Source/Core/Core/PatchEngine.h:46-64 | every value of a patch width prints within its character length, and the largest value of that width needs all of it |
| PatchEngine.CharLengthIncreasesWithWidth | Source/Core/Core/PatchEngine.h:12-64 | between enumerators, a wider patch type has a strictly longer character length |

## Left out

- `PulseAudioStream.h`: an audio output wrapper built on a thread, an atomic flag and library callbacks. It holds no logic to model.
- `StreamBuffer` internals (fence waits, wrap-around, `Create`) are not part of this model. Where `Map` places a region arrives as a `Placement` parameter, which only has to lie inside the buffer.
- `MAXVBUFFERSIZE` and `MAXIBUFFERSIZE`: `VertexManagerBase.h` is not part of this model. They are constructor parameters, required to fit `MAX_VBUFFER_SIZE` and `MAX_IBUFFER_SIZE` (`VertexManager.cpp:39-40`).
- The destructor and `DestroyDeviceObjects`: resource release and GL unbinding only.
- The debug dump block (`VertexManager.cpp:196-223`): file output and screenshots, compiled only in debug builds.
- `GL_REPORT_ERROR*`, real GL semantics, and the internals of `ProgramShaderCache` and `SetupVertexPointers` are foreign calls. They appear only as events in the log.
- `ADDSTAT`/`INCSTAT`, `iSaveTargetId` and the statistics counters are unbounded integers. Their overflow is not modelled.
- `ClearEFBCache` is a call into the renderer. Only the number of calls is kept.
- The index generator is an input. Its vertex and index counts arrive in a `FlushContext`, together with the capability flags, the blend mode and the colour mask `Renderer::SetColorMask` restores.
- The null vertex format: the source dereferences `g_nativeVertexFmt` for the stride and the shader selection before its null check, and draws unconditionally. A `FlushContext` therefore always carries a format. A null format does not turn a flush into a no-op draw.
- A `current_primitive_type` outside points, lines and triangles, which would leave the GL primitive 0, is not modelled.
- The `m_last_vao` memo is sound only if nothing outside the vertex manager binds vertex arrays. `Valid()` states that the remembered VAO is the bound one.
- OGL.VertexManager.Flush: requires the batch to fit its windows. The source relies on the vertex loader and the index generator, which are not part of this model, to stop at the window's end. Under that requirement the u32 sizes are exact (`OGL.CommitSizesExact`).
- Returning to the accumulating state after a flush is a separate `ResetBuffer` call. The source's flush does not reopen the windows itself.
- `PatchEngine`: the loading and applying functions, `PatchTypeStrings` and `GetSpeedhackCycles` are only declared in the header. They depend on INI files and emulated memory.
- `PatchEngine`: the default `PatchEntry()` constructor leaves its fields uninitialised and is not modelled.
