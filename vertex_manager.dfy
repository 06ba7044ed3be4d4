/** The OpenGL backend's vertex manager: it opens a streaming window for each
    batch of decoded geometry, commits what the index generator reports, and
    turns the batch into one or two indexed draws. */
module OGL {

  import opened Wrappers
  import opened GLDevice
  import opened Streaming

  /** Sizes in bytes of the two GL streaming buffers. */
  const MAX_IBUFFER_SIZE: nat := 2 * 1024 * 1024
  const MAX_VBUFFER_SIZE: nat := 32 * 1024 * 1024

  /** Indices are u16. */
  const INDEX_SIZE: nat := 2

  const U32_MODULUS: nat := 0x1_0000_0000
  const GLINT_LIMIT: nat := 0x8000_0000

  /** A product stored into a u32. */
  function U32(x: nat): (r: nat)
    ensures r < U32_MODULUS
    ensures x < U32_MODULUS ==> r == x
  {
    x % U32_MODULUS
  }

  /** The (GLint) conversion of a size_t: two's-complement truncation to 32 bits. */
  function ToGLint(x: nat): (r: int)
    ensures -(GLINT_LIMIT as int) <= r < GLINT_LIMIT
    ensures x < GLINT_LIMIT ==> r == x
  {
    var w := x % U32_MODULUS;
    if w < GLINT_LIMIT then w else w - U32_MODULUS
  }

  /** The emulated primitive kinds the index generator produces. */
  datatype PrimitiveType = PrimitivePoints | PrimitiveLines | PrimitiveTriangles

  /** Capability flags of the backend, read at every flush. */
  datatype Capabilities = Capabilities(
    supportsGLBaseVertex: bool,
    supportsPrimitiveRestart: bool,
    supportsDualSourceBlend: bool)

  /** The active native vertex format: its stride, its vertex array object and
      the vertex components its programs are compiled for. */
  datatype VertexFormat = VertexFormat(stride: nat, vao: nat, components: nat)

  /** The two blend-mode bits that decide whether GL_BLEND is on. */
  datatype BlendMode = BlendMode(blendEnable: bool, subtract: bool)

  /** What a flush reads from its collaborators: the vertex format, the index
      generator's counts, the current primitive type, the capability flags, the
      blend mode, and the colour mask the renderer restores. */
  datatype FlushContext = FlushContext(
    format: VertexFormat,
    numVerts: nat,
    indexLen: nat,
    primitive: PrimitiveType,
    caps: Capabilities,
    blendMode: BlendMode,
    rendererColorMask: ColorMask)

  /** Running statistics counters. */
  datatype Stats = Stats(bytesVertexStreamed: nat, bytesIndexStreamed: nat, numIndexedDrawCalls: nat)

  /** Bytes of vertex data a batch occupies. */
  function CommittedVertexBytes(ctx: FlushContext): nat
  {
    ctx.numVerts * ctx.format.stride
  }

  /** Bytes of index data a batch occupies. */
  function CommittedIndexBytes(ctx: FlushContext): nat
  {
    ctx.indexLen * INDEX_SIZE
  }

  /** The GL primitive a batch is drawn with. Triangles are emitted as strips
      separated by restart indices when the device restarts primitives. */
  function PrimitiveMode(primitive: PrimitiveType, primitiveRestart: bool): (mode: GLPrimitive)
    ensures mode == GLPoints <==> primitive == PrimitivePoints
    ensures mode == GLLines <==> primitive == PrimitiveLines
    ensures mode == GLTriangleStrip <==> primitive == PrimitiveTriangles && primitiveRestart
    ensures mode == GLTriangles <==> primitive == PrimitiveTriangles && !primitiveRestart
  {
    match primitive
    case PrimitivePoints => GLPoints
    case PrimitiveLines => GLLines
    case PrimitiveTriangles => if primitiveRestart then GLTriangleStrip else GLTriangles
  }

  /** The emulated primitive kind a GL primitive stands for. */
  function Topology(mode: GLPrimitive): PrimitiveType
  {
    match mode
    case GLPoints => PrimitivePoints
    case GLLines => PrimitiveLines
    case GLTriangles => PrimitiveTriangles
    case GLTriangleStrip => PrimitiveTriangles
  }

  /** Whatever the restart capability, the GL primitive still draws the
      emulated primitive kind: the mapping loses nothing. */
  lemma PrimitiveModeKeepsTopology(primitive: PrimitiveType, primitiveRestart: bool)
    ensures Topology(PrimitiveMode(primitive, primitiveRestart)) == primitive
  {
  }

  /** The draw that a batch turns into, given the window's index offset and base vertex. */
  function DrawCallFor(ctx: FlushContext, indexOffset: nat, baseVertex: nat): DrawCall
  {
    DrawCall(
      PrimitiveMode(ctx.primitive, ctx.caps.supportsPrimitiveRestart),
      0, ctx.numVerts, ctx.indexLen, indexOffset,
      if ctx.caps.supportsGLBaseVertex then Some(baseVertex) else None)
  }

  /** The draw reads exactly what was committed: its index count covers the
      committed index bytes from the window's offset, its vertex range the
      committed vertex bytes, and it is relative to the window's base vertex
      exactly when the device can take one. */
  lemma DrawCoversCommittedWindow(ctx: FlushContext, indexOffset: nat, baseVertex: nat)
    ensures var call := DrawCallFor(ctx, indexOffset, baseVertex);
      && call.start == 0
      && call.count * INDEX_SIZE == CommittedIndexBytes(ctx)
      && call.end * ctx.format.stride == CommittedVertexBytes(ctx)
      && call.indexOffset == indexOffset
      && (call.baseVertex.Some? <==> ctx.caps.supportsGLBaseVertex)
      && (call.baseVertex.Some? ==> call.baseVertex.value == baseVertex)
  {
  }

  /** The program variant of the first pass. */
  function FirstPassShader(useDstAlpha: bool, dualSourcePossible: bool): (variant: DstAlphaMode)
    ensures variant == DstAlphaDualSourceBlend <==> dualSourcePossible && useDstAlpha
    ensures variant != DstAlphaDualSourceBlend ==> variant == DstAlphaNone
  {
    if dualSourcePossible then
      if useDstAlpha then DstAlphaDualSourceBlend else DstAlphaNone
    else
      DstAlphaNone
  }

  /** Destination alpha without dual-source blending takes a second, alpha-only pass. */
  predicate NeedsAlphaPass(useDstAlpha: bool, dualSourcePossible: bool)
  {
    useDstAlpha && !dualSourcePossible
  }

  /** Whether the blend mode wants GL_BLEND on. */
  predicate BlendWanted(mode: BlendMode)
  {
    mode.blendEnable || mode.subtract
  }

  /** A vertex array object is bound only when it is not the one bound last. */
  function BindEvents(lastVao: nat, vao: nat): seq<DeviceEvent>
  {
    if lastVao != vao then [BindVertexArray(vao)] else []
  }

  /** Select the program, upload constants, set up the vertex pointers. */
  function FirstPassSetup(useDstAlpha: bool, ctx: FlushContext): seq<DeviceEvent>
  {
    [UseProgram(FirstPassShader(useDstAlpha, ctx.caps.supportsDualSourceBlend), ctx.format.components),
     UploadConstants, SetupVertexPointers]
  }

  /** The first pass: setup, then the draw. */
  function FirstPassEvents(useDstAlpha: bool, ctx: FlushContext, call: DrawCall): seq<DeviceEvent>
  {
    FirstPassSetup(useDstAlpha, ctx) + [DrawRange(call)]
  }

  /** Alpha-pass program, alpha-only writes, blending off. */
  function AlphaPassSetup(ctx: FlushContext): seq<DeviceEvent>
  {
    [UseProgram(DstAlphaAlphaPass, ctx.format.components), SetColorMask(AlphaOnly), SetBlend(false)]
  }

  /** The renderer's colour mask back, and blending back on if the blend mode wants it. */
  function AlphaPassRestore(ctx: FlushContext): seq<DeviceEvent>
  {
    [SetColorMask(ctx.rendererColorMask)] + if BlendWanted(ctx.blendMode) then [SetBlend(true)] else []
  }

  /** The alpha-only redraw and the restoration of colour mask and blending. */
  function AlphaPassEvents(ctx: FlushContext, call: DrawCall): seq<DeviceEvent>
  {
    AlphaPassSetup(ctx) + [DrawRange(call)] + AlphaPassRestore(ctx)
  }

  /** Everything one flush sends to the device, in order. */
  function FlushEvents(lastVao: nat, useDstAlpha: bool, ctx: FlushContext, indexOffset: nat, baseVertex: nat)
    : seq<DeviceEvent>
  {
    var call := DrawCallFor(ctx, indexOffset, baseVertex);
    BindEvents(lastVao, ctx.format.vao)
    + FirstPassEvents(useDstAlpha, ctx, call)
    + if NeedsAlphaPass(useDstAlpha, ctx.caps.supportsDualSourceBlend) then AlphaPassEvents(ctx, call) else []
  }

  lemma BindEventsFacts(s: DeviceState, lastVao: nat, vao: nat)
    requires s.boundVao == lastVao
    ensures Replay(s, BindEvents(lastVao, vao)) == s.(boundVao := vao)
    ensures Issued(s, BindEvents(lastVao, vao)) == []
    ensures Shaders(BindEvents(lastVao, vao)) == []
    ensures Binds(BindEvents(lastVao, vao)) == if lastVao == vao then 0 else 1
  {
    if lastVao != vao {
      var e := BindVertexArray(vao);
      assert [] + [e] == BindEvents(lastVao, vao);
      SnocReplay(s, [], e);
      SnocIssued(s, [], e);
      SnocHistory([], e);
    }
  }

  lemma FirstPassReplay(s: DeviceState, useDstAlpha: bool, ctx: FlushContext, call: DrawCall)
    ensures Replay(s, FirstPassSetup(useDstAlpha, ctx))
      == s.(program := Some(FirstPassShader(useDstAlpha, ctx.caps.supportsDualSourceBlend)))
    ensures Replay(s, FirstPassEvents(useDstAlpha, ctx, call))
      == s.(program := Some(FirstPassShader(useDstAlpha, ctx.caps.supportsDualSourceBlend)))
  {
    var es := FirstPassSetup(useDstAlpha, ctx);
    assert [] + [es[0]] == es[..1];
    SnocReplay(s, [], es[0]);
    SnocReplay(s, es[..1], es[1]);
    assert es[..1] + [es[1]] == es[..2];
    SnocReplay(s, es[..2], es[2]);
    assert es[..2] + [es[2]] == es;
    SnocReplay(s, es, DrawRange(call));
  }

  lemma FirstPassIssued(s: DeviceState, useDstAlpha: bool, ctx: FlushContext, call: DrawCall)
    ensures Issued(s, FirstPassEvents(useDstAlpha, ctx, call))
      == [IssuedDraw(call, s.(program := Some(FirstPassShader(useDstAlpha, ctx.caps.supportsDualSourceBlend))))]
  {
    var es := FirstPassSetup(useDstAlpha, ctx);
    FirstPassReplay(s, useDstAlpha, ctx, call);
    assert es + [DrawRange(call)] + [] == FirstPassEvents(useDstAlpha, ctx, call);
    DrawBetween(s, es, call, []);
  }

  lemma FirstPassHistory(useDstAlpha: bool, ctx: FlushContext, call: DrawCall)
    ensures Shaders(FirstPassEvents(useDstAlpha, ctx, call)) == [FirstPassShader(useDstAlpha, ctx.caps.supportsDualSourceBlend)]
    ensures Binds(FirstPassEvents(useDstAlpha, ctx, call)) == 0
  {
    var es := FirstPassSetup(useDstAlpha, ctx);
    assert [] + [es[0]] == es[..1];
    SnocHistory([], es[0]);
    SnocHistory(es[..1], es[1]);
    assert es[..1] + [es[1]] == es[..2];
    SnocHistory(es[..2], es[2]);
    assert es[..2] + [es[2]] == es;
    SnocHistory(es, DrawRange(call));
  }

  lemma AlphaPassSetupReplay(s: DeviceState, ctx: FlushContext)
    ensures Replay(s, AlphaPassSetup(ctx))
      == s.(program := Some(DstAlphaAlphaPass), colorMask := AlphaOnly, blendEnabled := false)
  {
    var es := AlphaPassSetup(ctx);
    assert [] + [es[0]] == es[..1];
    SnocReplay(s, [], es[0]);
    SnocReplay(s, es[..1], es[1]);
    assert es[..1] + [es[1]] == es[..2];
    SnocReplay(s, es[..2], es[2]);
    assert es[..2] + [es[2]] == es;
  }

  lemma AlphaPassReplay(s: DeviceState, ctx: FlushContext, call: DrawCall)
    ensures Replay(s, AlphaPassEvents(ctx, call))
      == s.(program := Some(DstAlphaAlphaPass), colorMask := ctx.rendererColorMask,
            blendEnabled := BlendWanted(ctx.blendMode))
  {
    var setup := AlphaPassSetup(ctx);
    var restore := AlphaPassRestore(ctx);
    AlphaPassSetupReplay(s, ctx);
    SnocReplay(s, setup, DrawRange(call));
    var t := Replay(s, setup + [DrawRange(call)]);
    ReplayAppend(s, setup + [DrawRange(call)], restore);
    var m := SetColorMask(ctx.rendererColorMask);
    assert [] + [m] == [m];
    SnocReplay(t, [], m);
    if BlendWanted(ctx.blendMode) {
      SnocReplay(t, [m], SetBlend(true));
      assert [m] + [SetBlend(true)] == restore;
    } else {
      assert [m] == restore;
    }
  }

  lemma AlphaPassIssued(s: DeviceState, ctx: FlushContext, call: DrawCall)
    ensures Issued(s, AlphaPassEvents(ctx, call))
      == [IssuedDraw(call, s.(program := Some(DstAlphaAlphaPass), colorMask := AlphaOnly, blendEnabled := false))]
  {
    AlphaPassSetupReplay(s, ctx);
    DrawBetween(s, AlphaPassSetup(ctx), call, AlphaPassRestore(ctx));
  }

  lemma AlphaPassHistory(ctx: FlushContext, call: DrawCall)
    ensures Shaders(AlphaPassEvents(ctx, call)) == [DstAlphaAlphaPass]
    ensures Binds(AlphaPassEvents(ctx, call)) == 0
  {
    var es := AlphaPassSetup(ctx);
    assert [] + [es[0]] == es[..1];
    SnocHistory([], es[0]);
    SnocHistory(es[..1], es[1]);
    assert es[..1] + [es[1]] == es[..2];
    SnocHistory(es[..2], es[2]);
    assert es[..2] + [es[2]] == es;
    SnocHistory(es, DrawRange(call));
    var restore := AlphaPassRestore(ctx);
    var m := SetColorMask(ctx.rendererColorMask);
    assert [] + [m] == [m];
    SnocHistory([], m);
    if BlendWanted(ctx.blendMode) {
      SnocHistory([m], SetBlend(true));
      assert [m] + [SetBlend(true)] == restore;
    } else {
      assert [m] == restore;
    }
    ShadersAppend(es + [DrawRange(call)], restore);
    BindsAppend(es + [DrawRange(call)], restore);
  }

  /** The device after a flush, stated directly: the format's vertex array is
      bound and the last program selected is current; after an alpha pass the
      renderer's colour mask is back and blending is on exactly when the blend
      mode asks for it; without one, mask and blending are as before. */
  function DeviceAfterFlush(s: DeviceState, useDstAlpha: bool, ctx: FlushContext): DeviceState
  {
    var dual := ctx.caps.supportsDualSourceBlend;
    if NeedsAlphaPass(useDstAlpha, dual) then
      s.(boundVao := ctx.format.vao, program := Some(DstAlphaAlphaPass),
         colorMask := ctx.rendererColorMask, blendEnabled := BlendWanted(ctx.blendMode))
    else
      s.(boundVao := ctx.format.vao, program := Some(FirstPassShader(useDstAlpha, dual)))
  }

  /** Replaying a flush's events gives that state, whenever the remembered
      vertex array is the one bound. */
  lemma {:induction false} FlushFinalState(
    s: DeviceState, lastVao: nat, useDstAlpha: bool, ctx: FlushContext, indexOffset: nat, baseVertex: nat)
    requires s.boundVao == lastVao
    ensures Replay(s, FlushEvents(lastVao, useDstAlpha, ctx, indexOffset, baseVertex)) == DeviceAfterFlush(s, useDstAlpha, ctx)
  {
    var call := DrawCallFor(ctx, indexOffset, baseVertex);
    var b := BindEvents(lastVao, ctx.format.vao);
    var f := FirstPassEvents(useDstAlpha, ctx, call);
    var a := if NeedsAlphaPass(useDstAlpha, ctx.caps.supportsDualSourceBlend) then AlphaPassEvents(ctx, call) else [];
    BindEventsFacts(s, lastVao, ctx.format.vao);
    ReplayAppend(s, b, f);
    FirstPassReplay(Replay(s, b), useDstAlpha, ctx, call);
    ReplayAppend(s, b + f, a);
    AlphaPassReplay(Replay(s, b + f), ctx, call);
  }

  /** The draws of a flush: one, or, when destination alpha needs the fallback,
      the same draw again under the alpha-pass program with only alpha written
      and blending off. The first draw runs with the format's vertex array and
      the first-pass program, colour mask and blending untouched. */
  lemma {:induction false} FlushIssuedDraws(
    s: DeviceState, lastVao: nat, useDstAlpha: bool, ctx: FlushContext, indexOffset: nat, baseVertex: nat)
    requires s.boundVao == lastVao
    ensures var call := DrawCallFor(ctx, indexOffset, baseVertex);
      var dual := ctx.caps.supportsDualSourceBlend;
      var first := s.(boundVao := ctx.format.vao, program := Some(FirstPassShader(useDstAlpha, dual)));
      var alpha := first.(program := Some(DstAlphaAlphaPass), colorMask := AlphaOnly, blendEnabled := false);
      Issued(s, FlushEvents(lastVao, useDstAlpha, ctx, indexOffset, baseVertex))
        == [IssuedDraw(call, first)] + if NeedsAlphaPass(useDstAlpha, dual) then [IssuedDraw(call, alpha)] else []
  {
    var call := DrawCallFor(ctx, indexOffset, baseVertex);
    var b := BindEvents(lastVao, ctx.format.vao);
    var f := FirstPassEvents(useDstAlpha, ctx, call);
    var a := if NeedsAlphaPass(useDstAlpha, ctx.caps.supportsDualSourceBlend) then AlphaPassEvents(ctx, call) else [];
    BindEventsFacts(s, lastVao, ctx.format.vao);
    IssuedAppend(s, b, f);
    ReplayAppend(s, b, f);
    FirstPassIssued(Replay(s, b), useDstAlpha, ctx, call);
    FirstPassReplay(Replay(s, b), useDstAlpha, ctx, call);
    IssuedAppend(s, b + f, a);
    AlphaPassIssued(Replay(s, b + f), ctx, call);
  }

  /** The programs a flush selects: the first-pass variant, then the alpha-pass
      variant exactly when the fallback runs. */
  lemma {:induction false} FlushShaders(lastVao: nat, useDstAlpha: bool, ctx: FlushContext, indexOffset: nat, baseVertex: nat)
    ensures var dual := ctx.caps.supportsDualSourceBlend;
      Shaders(FlushEvents(lastVao, useDstAlpha, ctx, indexOffset, baseVertex))
        == [FirstPassShader(useDstAlpha, dual)] + if NeedsAlphaPass(useDstAlpha, dual) then [DstAlphaAlphaPass] else []
  {
    var s := DeviceState(lastVao, None, AlphaOnly, false);
    var call := DrawCallFor(ctx, indexOffset, baseVertex);
    var b := BindEvents(lastVao, ctx.format.vao);
    var f := FirstPassEvents(useDstAlpha, ctx, call);
    var a := if NeedsAlphaPass(useDstAlpha, ctx.caps.supportsDualSourceBlend) then AlphaPassEvents(ctx, call) else [];
    BindEventsFacts(s, lastVao, ctx.format.vao);
    FirstPassHistory(useDstAlpha, ctx, call);
    ShadersAppend(b, f);
    if NeedsAlphaPass(useDstAlpha, ctx.caps.supportsDualSourceBlend) {
      AlphaPassHistory(ctx, call);
      ShadersAppend(b + f, a);
    } else {
      assert b + f + a == b + f;
    }
  }

  /** A flush binds a vertex array at most once, and only when it changes. */
  lemma {:induction false} FlushBinds(lastVao: nat, useDstAlpha: bool, ctx: FlushContext, indexOffset: nat, baseVertex: nat)
    ensures Binds(FlushEvents(lastVao, useDstAlpha, ctx, indexOffset, baseVertex))
      == if lastVao == ctx.format.vao then 0 else 1
  {
    var s := DeviceState(lastVao, None, AlphaOnly, false);
    var call := DrawCallFor(ctx, indexOffset, baseVertex);
    var b := BindEvents(lastVao, ctx.format.vao);
    var f := FirstPassEvents(useDstAlpha, ctx, call);
    var a := if NeedsAlphaPass(useDstAlpha, ctx.caps.supportsDualSourceBlend) then AlphaPassEvents(ctx, call) else [];
    BindEventsFacts(s, lastVao, ctx.format.vao);
    FirstPassHistory(useDstAlpha, ctx, call);
    BindsAppend(b, f);
    if NeedsAlphaPass(useDstAlpha, ctx.caps.supportsDualSourceBlend) {
      AlphaPassHistory(ctx, call);
      BindsAppend(b + f, a);
    } else {
      assert b + f + a == b + f;
    }
  }

  /** Two flushes with the same vertex array, the second remembering what the
      first bound, bind at most once between them. */
  lemma {:induction false} RepeatedFlushBindsOnce(
    lastVao: nat, ctx1: FlushContext, ctx2: FlushContext, useDstAlpha1: bool, useDstAlpha2: bool,
    indexOffset1: nat, baseVertex1: nat, indexOffset2: nat, baseVertex2: nat)
    requires ctx1.format.vao == ctx2.format.vao
    ensures Binds(FlushEvents(lastVao, useDstAlpha1, ctx1, indexOffset1, baseVertex1)
                + FlushEvents(ctx1.format.vao, useDstAlpha2, ctx2, indexOffset2, baseVertex2))
      <= 1
  {
    BindsAppend(FlushEvents(lastVao, useDstAlpha1, ctx1, indexOffset1, baseVertex1),
                FlushEvents(ctx1.format.vao, useDstAlpha2, ctx2, indexOffset2, baseVertex2));
    FlushBinds(lastVao, useDstAlpha1, ctx1, indexOffset1, baseVertex1);
    FlushBinds(ctx1.format.vao, useDstAlpha2, ctx2, indexOffset2, baseVertex2);
  }

  /** With the window's offset a whole number of vertices, vertex i of the
      batch, addressed relative to the base vertex, lies inside the committed
      vertex bytes of the window. */
  lemma BaseVertexAddressesWindow(offset: nat, stride: nat, numVerts: nat, i: nat)
    requires stride > 0 && offset % stride == 0
    requires i < numVerts
    ensures offset <= (offset / stride + i) * stride
    ensures (offset / stride + i) * stride + stride <= offset + numVerts * stride
  {
    var q := offset / stride;
    assert q * stride == offset;
    assert (q + i) * stride == offset + i * stride;
    assert (i + 1) * stride <= numVerts * stride;
  }

  /** A quotient by a positive divisor is no larger than the dividend. */
  lemma DivAtMost(x: nat, d: nat)
    requires d > 0
    ensures x / d <= x
  {
    var q := x / d;
    assert x == q * d + x % d;
    assert q <= q * d by {
      var k: nat := d - 1;
      assert q * d == q + q * k;
    }
  }

  /** The committed sizes, computed in u32, are the exact byte counts whenever
      the batch fits its window. */
  lemma CommitSizesExact(ctx: FlushContext, maxVBufferSize: nat, maxIBufferSize: nat)
    requires maxVBufferSize <= MAX_VBUFFER_SIZE && maxIBufferSize * INDEX_SIZE <= MAX_IBUFFER_SIZE
    requires CommittedVertexBytes(ctx) <= maxVBufferSize && ctx.indexLen <= maxIBufferSize
    ensures U32(ctx.numVerts * ctx.format.stride) == CommittedVertexBytes(ctx)
    ensures U32(ctx.indexLen * INDEX_SIZE) == CommittedIndexBytes(ctx)
  {
  }

  class VertexManager {
    /** Bytes in one vertex window (MAXVBUFFERSIZE). */
    const maxVBufferSize: nat
    /** Indices in one index window (MAXIBUFFERSIZE). */
    const maxIBufferSize: nat
    const vertexBuffer: StreamBuffer
    const indexBuffer: StreamBuffer

    /** The window's first vertex, in whole vertices. */
    var baseVertex: nat
    /** The window's byte offset in the index buffer. */
    var indexOffset: nat
    /** Write cursor, start and end of the vertex window. */
    var curBufferPointer: nat
    var baseBufferPointer: nat
    var endBufferPointer: nat
    /** Where the index generator writes indices. */
    var indexDestination: nat
    /** The vertex array object bound last. */
    var lastVao: nat

    var device: DeviceState
    var log: seq<DeviceEvent>
    var stats: Stats
    /** The per-flush diagnostic id. */
    var saveTargetId: int
    /** How many times the EFB readback cache was invalidated. */
    var efbCacheClears: nat

    ghost predicate Valid()
      reads this, vertexBuffer, indexBuffer
    {
      && vertexBuffer != indexBuffer
      && vertexBuffer.capacity == MAX_VBUFFER_SIZE
      && indexBuffer.capacity == MAX_IBUFFER_SIZE
      && maxVBufferSize <= MAX_VBUFFER_SIZE
      && maxIBufferSize * INDEX_SIZE <= MAX_IBUFFER_SIZE
      && (vertexBuffer.outstanding == None || vertexBuffer.outstanding == Some(maxVBufferSize))
      && (indexBuffer.outstanding == None || indexBuffer.outstanding == Some(maxIBufferSize * INDEX_SIZE))
      && baseVertex <= MAX_VBUFFER_SIZE
      && lastVao == device.boundVao
    }

    /** Between ResetBuffer and the flush that commits the windows. */
    ghost predicate Accumulating()
      reads this, vertexBuffer, indexBuffer
    {
      vertexBuffer.outstanding.Some? && indexBuffer.outstanding.Some?
    }

    /** Creates both streaming buffers; nothing is mapped and no vertex array is
        remembered yet. `device` is the context's state, with array object 0 bound. */
    constructor (maxVBufferSize: nat, maxIBufferSize: nat, device: DeviceState)
      requires maxVBufferSize <= MAX_VBUFFER_SIZE && maxIBufferSize * INDEX_SIZE <= MAX_IBUFFER_SIZE
      requires device.boundVao == 0
      ensures Valid() && !Accumulating()
      ensures fresh(vertexBuffer) && fresh(indexBuffer)
      ensures this.maxVBufferSize == maxVBufferSize && this.maxIBufferSize == maxIBufferSize
      ensures vertexBuffer.commits == [] && indexBuffer.commits == []
      ensures lastVao == 0 && this.device == device && log == []
      ensures stats == Stats(0, 0, 0) && saveTargetId == 0 && efbCacheClears == 0
    {
      this.maxVBufferSize := maxVBufferSize;
      this.maxIBufferSize := maxIBufferSize;
      vertexBuffer := new StreamBuffer(MAX_VBUFFER_SIZE);
      indexBuffer := new StreamBuffer(MAX_IBUFFER_SIZE);
      baseVertex, indexOffset := 0, 0;
      curBufferPointer, baseBufferPointer, endBufferPointer, indexDestination := 0, 0, 0, 0;
      lastVao := 0;
      this.device := device;
      log := [];
      stats := Stats(0, 0, 0);
      saveTargetId := 0;
      efbCacheClears := 0;
    }

    /** Sends one event other than a vertex array bind to the device. */
    method Issue(e: DeviceEvent)
      requires Valid() && !e.BindVertexArray?
      modifies this`log, this`device
      ensures Valid()
      ensures log == old(log) + [e]
      ensures device == Step(old(device), e)
    {
      log := log + [e];
      device := Step(device, e);
    }

    /** Commits the bytes the index generator reports for the batch, as the
        u32 products the source computes; the streaming buffers accept no more
        than each window holds. */
    method PrepareDrawBuffers(stride: nat, numVerts: nat, indexLen: nat)
      requires Valid() && Accumulating()
      requires U32(numVerts * stride) <= maxVBufferSize
      requires U32(indexLen * INDEX_SIZE) <= maxIBufferSize * INDEX_SIZE
      modifies this`stats, vertexBuffer, indexBuffer
      ensures Valid() && vertexBuffer.outstanding == None && indexBuffer.outstanding == None
      ensures vertexBuffer.commits == old(vertexBuffer.commits) + [U32(numVerts * stride)]
      ensures indexBuffer.commits == old(indexBuffer.commits) + [U32(indexLen * INDEX_SIZE)]
      ensures stats == old(stats).(
        bytesVertexStreamed := old(stats).bytesVertexStreamed + U32(numVerts * stride),
        bytesIndexStreamed := old(stats).bytesIndexStreamed + U32(indexLen * INDEX_SIZE))
    {
      var vertexDataSize := U32(numVerts * stride);
      var indexDataSize := U32(indexLen * INDEX_SIZE);

      vertexBuffer.Unmap(vertexDataSize);
      indexBuffer.Unmap(indexDataSize);

      stats := stats.(
        bytesVertexStreamed := stats.bytesVertexStreamed + vertexDataSize,
        bytesIndexStreamed := stats.bytesIndexStreamed + indexDataSize);
    }

    /** Opens the next vertex and index windows. `vertexPlacement` and
        `indexPlacement` are where the streaming buffers place them. */
    method ResetBuffer(stride: nat, vertexPlacement: Placement, indexPlacement: Placement)
      requires Valid() && stride > 0
      requires vertexPlacement.offset + maxVBufferSize <= MAX_VBUFFER_SIZE
      requires indexPlacement.offset + maxIBufferSize * INDEX_SIZE <= MAX_IBUFFER_SIZE
      modifies this, vertexBuffer, indexBuffer
      ensures Valid() && Accumulating()
      ensures curBufferPointer == baseBufferPointer == vertexPlacement.pointer
      ensures endBufferPointer == vertexPlacement.pointer + maxVBufferSize
      ensures baseVertex == vertexPlacement.offset / stride
      ensures indexDestination == indexPlacement.pointer
      ensures indexOffset == indexPlacement.offset
      ensures vertexBuffer.commits == old(vertexBuffer.commits) && indexBuffer.commits == old(indexBuffer.commits)
      ensures log == old(log) && device == old(device) && lastVao == old(lastVao)
      ensures stats == old(stats) && saveTargetId == old(saveTargetId) && efbCacheClears == old(efbCacheClears)
    {
      var pointer, offset := vertexBuffer.Map(maxVBufferSize, stride, vertexPlacement);
      curBufferPointer, baseBufferPointer := pointer, pointer;
      endBufferPointer := pointer + maxVBufferSize;
      baseVertex := offset / stride;
      DivAtMost(offset, stride);

      pointer, offset := indexBuffer.Map(maxIBufferSize * INDEX_SIZE, INDEX_SIZE, indexPlacement);
      indexDestination := pointer;
      indexOffset := offset;
    }

    /** Issues the batch's draw. */
    method Draw(ctx: FlushContext)
      requires Valid()
      modifies this`log, this`device, this`stats
      ensures Valid()
      ensures log == old(log) + [DrawRange(DrawCallFor(ctx, indexOffset, baseVertex))]
      ensures device == old(device)
      ensures stats == old(stats).(numIndexedDrawCalls := old(stats).numIndexedDrawCalls + 1)
    {
      var indexSize := ctx.indexLen;
      var maxIndex := ctx.numVerts;
      var mode := PrimitiveMode(ctx.primitive, ctx.caps.supportsPrimitiveRestart);
      var call;
      if ctx.caps.supportsGLBaseVertex {
        call := DrawCall(mode, 0, maxIndex, indexSize, indexOffset, Some(ToGLint(baseVertex)));
      } else {
        call := DrawCall(mode, 0, maxIndex, indexSize, indexOffset, None);
      }
      Issue(DrawRange(call));
      stats := stats.(numIndexedDrawCalls := stats.numIndexedDrawCalls + 1);
    }

    /** Binds the format's vertex array unless it is the one bound last. */
    method BindVertexFormat(format: VertexFormat)
      requires Valid()
      modifies this`log, this`device, this`lastVao
      ensures Valid()
      ensures log == old(log) + BindEvents(old(lastVao), format.vao)
      ensures device == old(device).(boundVao := format.vao)
      ensures lastVao == format.vao
    {
      if lastVao != format.vao {
        var e := BindVertexArray(format.vao);
        log := log + [e];
        device := Step(device, e);
        lastVao := format.vao;
      }
    }

    /** Selects the first-pass program, uploads constants, sets up the vertex
        pointers and draws. */
    method FirstPass(useDstAlpha: bool, ctx: FlushContext)
      requires Valid()
      modifies this`log, this`device, this`stats
      ensures Valid()
      ensures log == old(log) + FirstPassEvents(useDstAlpha, ctx, DrawCallFor(ctx, indexOffset, baseVertex))
      ensures device == old(device).(program := Some(FirstPassShader(useDstAlpha, ctx.caps.supportsDualSourceBlend)))
      ensures stats == old(stats).(numIndexedDrawCalls := old(stats).numIndexedDrawCalls + 1)
    {
      var components := ctx.format.components;
      var dualSourcePossible := ctx.caps.supportsDualSourceBlend;
      if dualSourcePossible {
        if useDstAlpha {
          Issue(UseProgram(DstAlphaDualSourceBlend, components));
        } else {
          Issue(UseProgram(DstAlphaNone, components));
        }
      } else {
        Issue(UseProgram(DstAlphaNone, components));
      }
      Issue(UploadConstants);
      Issue(SetupVertexPointers);
      Draw(ctx);
    }

    /** Redraws writing alpha only, unblended, then restores the renderer's
        colour mask and the blending the blend mode asks for. */
    method AlphaPass(ctx: FlushContext)
      requires Valid()
      modifies this`log, this`device, this`stats
      ensures Valid()
      ensures log == old(log) + AlphaPassEvents(ctx, DrawCallFor(ctx, indexOffset, baseVertex))
      ensures device == old(device).(program := Some(DstAlphaAlphaPass), colorMask := ctx.rendererColorMask,
                                     blendEnabled := BlendWanted(ctx.blendMode))
      ensures stats == old(stats).(numIndexedDrawCalls := old(stats).numIndexedDrawCalls + 1)
    {
      var components := ctx.format.components;
      ghost var log0 := log;
      ghost var events := AlphaPassEvents(ctx, DrawCallFor(ctx, indexOffset, baseVertex));
      assert log == log0 + events[..0];
      Issue(UseProgram(DstAlphaAlphaPass, components));
      IssuedPrefix(log0, events, 0);
      Issue(SetColorMask(AlphaOnly));
      IssuedPrefix(log0, events, 1);
      Issue(SetBlend(false));
      IssuedPrefix(log0, events, 2);
      Draw(ctx);
      IssuedPrefix(log0, events, 3);
      Issue(SetColorMask(ctx.rendererColorMask));
      IssuedPrefix(log0, events, 4);
      if ctx.blendMode.blendEnable || ctx.blendMode.subtract {
        Issue(SetBlend(true));
        IssuedPrefix(log0, events, 5);
        assert events[..6] == events;
      } else {
        assert events[..5] == events;
      }
    }

    /** Commits the batch and draws it, with the destination-alpha fallback
        pass when dual-source blending is missing. */
    method Flush(useDstAlpha: bool, ctx: FlushContext)
      requires Valid() && Accumulating()
      requires CommittedVertexBytes(ctx) <= maxVBufferSize && ctx.indexLen <= maxIBufferSize
      modifies this`log, this`device, this`lastVao, this`stats, this`saveTargetId, this`efbCacheClears
      modifies vertexBuffer, indexBuffer
      ensures Valid() && vertexBuffer.outstanding == None && indexBuffer.outstanding == None
      ensures log == old(log) + FlushEvents(old(lastVao), useDstAlpha, ctx, old(indexOffset), old(baseVertex))
      ensures device == Replay(old(device), FlushEvents(old(lastVao), useDstAlpha, ctx, old(indexOffset), old(baseVertex)))
      ensures lastVao == ctx.format.vao && device.boundVao == ctx.format.vao
      ensures NeedsAlphaPass(useDstAlpha, ctx.caps.supportsDualSourceBlend) ==>
        device.colorMask == ctx.rendererColorMask && device.blendEnabled == BlendWanted(ctx.blendMode)
      ensures !NeedsAlphaPass(useDstAlpha, ctx.caps.supportsDualSourceBlend) ==>
        device.colorMask == old(device.colorMask) && device.blendEnabled == old(device.blendEnabled)
      ensures vertexBuffer.commits == old(vertexBuffer.commits) + [CommittedVertexBytes(ctx)]
      ensures indexBuffer.commits == old(indexBuffer.commits) + [CommittedIndexBytes(ctx)]
      ensures stats == Stats(
        old(stats).bytesVertexStreamed + CommittedVertexBytes(ctx),
        old(stats).bytesIndexStreamed + CommittedIndexBytes(ctx),
        old(stats).numIndexedDrawCalls + if NeedsAlphaPass(useDstAlpha, ctx.caps.supportsDualSourceBlend) then 2 else 1)
      ensures saveTargetId == old(saveTargetId) + 1 && efbCacheClears == old(efbCacheClears) + 1
    {
      ghost var log0 := log;
      ghost var device0 := device;
      ghost var events := FlushEvents(lastVao, useDstAlpha, ctx, indexOffset, baseVertex);
      ghost var call := DrawCallFor(ctx, indexOffset, baseVertex);
      var stride := ctx.format.stride;

      BindVertexFormat(ctx.format);
      ghost var logBound := log;

      CommitSizesExact(ctx, maxVBufferSize, maxIBufferSize);
      PrepareDrawBuffers(stride, ctx.numVerts, ctx.indexLen);

      FirstPass(useDstAlpha, ctx);
      ghost var logFirst := log;

      var dualSourcePossible := ctx.caps.supportsDualSourceBlend;
      if useDstAlpha && !dualSourcePossible {
        AlphaPass(ctx);
      }

      saveTargetId := saveTargetId + 1;
      efbCacheClears := efbCacheClears + 1;

      assert log == log0 + events by {
        assert logBound == log0 + BindEvents(old(lastVao), ctx.format.vao);
        assert logFirst == logBound + FirstPassEvents(useDstAlpha, ctx, call);
      }
      assert device == DeviceAfterFlush(device0, useDstAlpha, ctx);
      FlushFinalState(device0, old(lastVao), useDstAlpha, ctx, old(indexOffset), old(baseVertex));
    }
  }

  /** A batch of two triangles: 4 vertices of 32 bytes and 6 indices, drawn
      without destination alpha on a device with base-vertex draws. What a
      caller learns from the contracts alone: 128 and 12 bytes committed and a
      single draw of 6 indices from the window's base vertex. */
  method TwoTriangleBatch(vertexPlacement: Placement, indexPlacement: Placement, device: DeviceState)
    requires device.boundVao == 0
    requires vertexPlacement.offset + 0x50000 <= MAX_VBUFFER_SIZE
    requires indexPlacement.offset + 0xFFFF * INDEX_SIZE <= MAX_IBUFFER_SIZE
  {
    var manager := new VertexManager(0x50000, 0xFFFF, device);
    manager.ResetBuffer(32, vertexPlacement, indexPlacement);
    var format := VertexFormat(32, 7, 0);
    var caps := Capabilities(true, true, false);
    var ctx := FlushContext(format, 4, 6, PrimitiveTriangles, caps, BlendMode(true, false), ColorMask(true, true, true, true));
    ghost var device0 := manager.device;
    ghost var log0 := manager.log;
    manager.Flush(false, ctx);
    assert manager.vertexBuffer.commits == [128];
    assert manager.indexBuffer.commits == [12];
    var events := FlushEvents(0, false, ctx, indexPlacement.offset, vertexPlacement.offset / 32);
    assert manager.log == log0 + events;
    FlushIssuedDraws(device0, 0, false, ctx, indexPlacement.offset, vertexPlacement.offset / 32);
    var draws := Issued(device0, events);
    assert |draws| == 1;
    assert draws[0].call == DrawCall(GLTriangleStrip, 0, 4, 6, indexPlacement.offset, Some(vertexPlacement.offset / 32));
    assert manager.stats.numIndexedDrawCalls == 1;
  }
}
