/** The slice of GL device state that the OpenGL vertex manager touches, and the
    append-only log of the calls it makes. The device record is never written
    directly: it is what replaying the log from an initial state gives. */
module GLDevice {

  import opened Wrappers

  /** GL primitive enumerants used for indexed draws. */
  datatype GLPrimitive = GLPoints | GLLines | GLTriangles | GLTriangleStrip

  /** A glColorMask setting: which channels the next draws write. */
  datatype ColorMask = ColorMask(red: bool, green: bool, blue: bool, alpha: bool)

  /** glColorMask(GL_FALSE, GL_FALSE, GL_FALSE, GL_TRUE). */
  const AlphaOnly: ColorMask := ColorMask(false, false, false, true)

  /** The destination-alpha variants of a shader program (DSTALPHA_*). */
  datatype DstAlphaMode = DstAlphaNone | DstAlphaAlphaPass | DstAlphaDualSourceBlend

  /** One indexed draw over GL_UNSIGNED_SHORT indices. `start` and `end` bound the
      vertex indices, `count` is the number of indices, `indexOffset` the byte
      offset into the bound index buffer. `baseVertex` is Some for
      glDrawRangeElementsBaseVertex and None for plain glDrawRangeElements. */
  datatype DrawCall = DrawCall(
    mode: GLPrimitive,
    start: nat,
    end: nat,
    count: nat,
    indexOffset: nat,
    baseVertex: Option<int>)

  /** The calls into GL and into the program cache that one flush can make. */
  datatype DeviceEvent =
    | BindVertexArray(vao: nat)
    | UseProgram(variant: DstAlphaMode, components: nat)
    | UploadConstants
    | SetupVertexPointers
    | DrawRange(call: DrawCall)
    | SetColorMask(mask: ColorMask)
    | SetBlend(enabled: bool)

  /** Bound vertex array object, current program variant, colour mask and
      whether GL_BLEND is enabled. */
  datatype DeviceState = DeviceState(
    boundVao: nat,
    program: Option<DstAlphaMode>,
    colorMask: ColorMask,
    blendEnabled: bool)

  /** The effect of one event on the device. */
  function Step(s: DeviceState, e: DeviceEvent): (t: DeviceState)
    ensures e.BindVertexArray? ==> t == s.(boundVao := e.vao)
    ensures e.UseProgram? ==> t == s.(program := Some(e.variant))
    ensures e.SetColorMask? ==> t == s.(colorMask := e.mask)
    ensures e.SetBlend? ==> t == s.(blendEnabled := e.enabled)
    ensures e.UploadConstants? || e.SetupVertexPointers? || e.DrawRange? ==> t == s
  {
    match e
    case BindVertexArray(vao) => s.(boundVao := vao)
    case UseProgram(variant, _) => s.(program := Some(variant))
    case SetColorMask(mask) => s.(colorMask := mask)
    case SetBlend(enabled) => s.(blendEnabled := enabled)
    case _ => s
  }

  /** The device state after the events `es`, issued in order from `s`. */
  function Replay(s: DeviceState, es: seq<DeviceEvent>): DeviceState
    decreases |es|
  {
    if es == [] then s else Step(Replay(s, es[..|es| - 1]), es[|es| - 1])
  }

  /** A draw together with the device state in force when it was issued. */
  datatype IssuedDraw = IssuedDraw(call: DrawCall, state: DeviceState)

  /** Every draw among the events `es`, in order, with the state it ran under. */
  function Issued(s: DeviceState, es: seq<DeviceEvent>): seq<IssuedDraw>
    decreases |es|
  {
    if es == [] then []
    else
      var init := es[..|es| - 1];
      var last := es[|es| - 1];
      Issued(s, init) + if last.DrawRange? then [IssuedDraw(last.call, Replay(s, init))] else []
  }

  /** The program variants selected by `es`, in order. */
  function Shaders(es: seq<DeviceEvent>): seq<DstAlphaMode>
    decreases |es|
  {
    if es == [] then []
    else
      var last := es[|es| - 1];
      Shaders(es[..|es| - 1]) + if last.UseProgram? then [last.variant] else []
  }

  /** How many glBindVertexArray calls `es` makes. */
  function Binds(es: seq<DeviceEvent>): nat
    decreases |es|
  {
    if es == [] then 0
    else Binds(es[..|es| - 1]) + if es[|es| - 1].BindVertexArray? then 1 else 0
  }

  lemma {:induction false} ReplayAppend(s: DeviceState, a: seq<DeviceEvent>, b: seq<DeviceEvent>)
    ensures Replay(s, a + b) == Replay(Replay(s, a), b)
    decreases |b|
  {
    if b == [] {
      assert a + b == a;
    } else {
      var b' := b[..|b| - 1];
      assert (a + b)[..|a + b| - 1] == a + b';
      ReplayAppend(s, a, b');
    }
  }

  lemma {:induction false} IssuedAppend(s: DeviceState, a: seq<DeviceEvent>, b: seq<DeviceEvent>)
    ensures Issued(s, a + b) == Issued(s, a) + Issued(Replay(s, a), b)
    decreases |b|
  {
    if b == [] {
      assert a + b == a;
    } else {
      var b' := b[..|b| - 1];
      assert (a + b)[..|a + b| - 1] == a + b';
      IssuedAppend(s, a, b');
      ReplayAppend(s, a, b');
    }
  }

  lemma {:induction false} ShadersAppend(a: seq<DeviceEvent>, b: seq<DeviceEvent>)
    ensures Shaders(a + b) == Shaders(a) + Shaders(b)
    decreases |b|
  {
    if b == [] {
      assert a + b == a;
    } else {
      var b' := b[..|b| - 1];
      assert (a + b)[..|a + b| - 1] == a + b';
      ShadersAppend(a, b');
    }
  }

  lemma {:induction false} BindsAppend(a: seq<DeviceEvent>, b: seq<DeviceEvent>)
    ensures Binds(a + b) == Binds(a) + Binds(b)
    decreases |b|
  {
    if b == [] {
      assert a + b == a;
    } else {
      var b' := b[..|b| - 1];
      assert (a + b)[..|a + b| - 1] == a + b';
      BindsAppend(a, b');
    }
  }

  /** Appending one event to a log is one more step of the device. */
  lemma SnocReplay(s: DeviceState, es: seq<DeviceEvent>, e: DeviceEvent)
    ensures Replay(s, es + [e]) == Step(Replay(s, es), e)
  {
    assert (es + [e])[..|es + [e]| - 1] == es;
  }

  /** An appended event joins the draw history exactly when it is a draw, with
      the state the log leaves the device in. */
  lemma SnocIssued(s: DeviceState, es: seq<DeviceEvent>, e: DeviceEvent)
    ensures Issued(s, es + [e]) == Issued(s, es) + if e.DrawRange? then [IssuedDraw(e.call, Replay(s, es))] else []
  {
    assert (es + [e])[..|es + [e]| - 1] == es;
  }

  /** An appended event joins the program and bind histories exactly when it is of that kind. */
  lemma SnocHistory(es: seq<DeviceEvent>, e: DeviceEvent)
    ensures Shaders(es + [e]) == Shaders(es) + if e.UseProgram? then [e.variant] else []
    ensures Binds(es + [e]) == Binds(es) + if e.BindVertexArray? then 1 else 0
  {
    assert (es + [e])[..|es + [e]| - 1] == es;
  }

  /** A log that has issued the first k events of `es` and then issues event k
      has issued the first k + 1. */
  lemma IssuedPrefix(log: seq<DeviceEvent>, es: seq<DeviceEvent>, k: nat)
    requires k < |es|
    ensures log + es[..k] + [es[k]] == log + es[..k + 1]
  {
    assert es[..k] + [es[k]] == es[..k + 1];
  }

  /** No event in `es` is a draw. */
  predicate NoDraws(es: seq<DeviceEvent>)
  {
    forall i | 0 <= i < |es| :: !es[i].DrawRange?
  }

  lemma {:induction false} NoDrawsIssueNothing(s: DeviceState, es: seq<DeviceEvent>)
    requires NoDraws(es)
    ensures Issued(s, es) == []
    decreases |es|
  {
    if es != [] {
      NoDrawsIssueNothing(s, es[..|es| - 1]);
    }
  }

  /** A draw between two runs of events that draw nothing is the only draw,
      and it runs under the state the first run leaves. */
  lemma DrawBetween(s: DeviceState, before: seq<DeviceEvent>, call: DrawCall, after: seq<DeviceEvent>)
    requires NoDraws(before) && NoDraws(after)
    ensures Issued(s, before + [DrawRange(call)] + after) == [IssuedDraw(call, Replay(s, before))]
  {
    NoDrawsIssueNothing(s, before);
    SnocIssued(s, before, DrawRange(call));
    IssuedAppend(s, before + [DrawRange(call)], after);
    NoDrawsIssueNothing(Replay(s, before + [DrawRange(call)]), after);
  }
}
