/**
 * The page state of main.js: the two cameras, the pointer state machine, the
 * wheel zoom, the reset buttons, the loaders that fill the viewer registry
 * and bind each canvas's listeners once, and the frame `render` draws.
 *
 * Every listener is a method of `Viewer`. A canvas listener takes the canvas
 * it was dispatched to and does nothing when that canvas has no listeners
 * yet. A loader receives what its fetches and WebGL calls produced (a
 * `SlotSource`), so network, DOM and GPU stay outside the model.
 */
module Page {
  import opened Wrappers
  import opened Registry
  import Ply
  import Calibration
  import Text

  /** `let initialCameraZ = -5.0` */
  const InitialCameraZ: real := -5.0
  /** `let minCameraZ = -0.5`; the zoom clamp is `Math.min(z, -minCameraZ)`. */
  const MinCameraZ: real := -0.5
  /** The factor applied to pointer deltas and to `deltaY`. */
  const Step: real := 0.01

  /* ---------------- camera arithmetic ---------------- */

  /**
   * One `pointermove` on a dragged row: yaw and pitch grow with the pointer
   * delta. The distance stays, and the camera turns exactly when the pointer
   * moved.
   */
  function Drag(p: Pose, dx: real, dy: real): (q: Pose)
    ensures q.z == p.z
    ensures q.yaw == p.yaw && q.pitch == p.pitch <==> dx == 0.0 && dy == 0.0
  {
    p.(yaw := p.yaw + dx * Step, pitch := p.pitch + dy * Step)
  }

  /**
   * A whole drag: the pointer starts at the anchor `(ax, ay)` recorded by
   * `pointerdown` and moves through `pts`, each move re-anchoring at its point.
   */
  function DragAlong(p: Pose, ax: real, ay: real, pts: seq<(real, real)>): Pose
    decreases |pts|
  {
    if pts == [] then p
    else DragAlong(Drag(p, pts[0].0 - ax, pts[0].1 - ay), pts[0].0, pts[0].1, pts[1..])
  }

  /** Two drags in a row rotate by the sum of their deltas; the distance is untouched. */
  lemma DragAdditive(p: Pose, a: real, b: real, c: real, d: real)
    ensures Drag(Drag(p, a, b), c, d) == Drag(p, a + c, b + d)
    ensures Drag(p, a, b).z == p.z
  {
  }

  /**
   * The re-anchoring makes a drag telescope: the camera ends up rotated by
   * the total pointer displacement, whatever path the pointer took.
   */
  lemma {:induction false} DragTelescopes(p: Pose, ax: real, ay: real, pts: seq<(real, real)>)
    requires pts != []
    ensures DragAlong(p, ax, ay, pts) == Drag(p, pts[|pts| - 1].0 - ax, pts[|pts| - 1].1 - ay)
    decreases |pts|
  {
    var q := Drag(p, pts[0].0 - ax, pts[0].1 - ay);
    if |pts| > 1 {
      DragTelescopes(q, pts[0].0, pts[0].1, pts[1..]);
      var last := pts[|pts| - 1];
      assert pts[1..][|pts[1..]| - 1] == last;
      DragAdditive(p, pts[0].0 - ax, pts[0].1 - ay, last.0 - pts[0].0, last.1 - pts[0].1);
    }
  }

  /** `Math.min(z, -minCameraZ)` */
  function ClampZ(z: real): (r: real)
    ensures r <= -MinCameraZ && r <= z
    ensures r == z || r == -MinCameraZ
  {
    if z < -MinCameraZ then z else -MinCameraZ
  }

  /**
   * `cam2Z` after one wheel event over row `C`: both window listeners step
   * and clamp it, so it never passes the clamp.
   */
  function ZoomCover(z: real, deltaY: real): (r: real)
    ensures r <= -MinCameraZ
  {
    ClampZ(ClampZ(z + deltaY * Step) + deltaY * Step)
  }

  /**
   * `cameraZ` after one wheel event over another row: the first listener
   * clamps, the second does not, so it can overshoot the clamp by one step.
   */
  function ZoomPrimary(z: real, deltaY: real): (r: real)
    ensures r <= -MinCameraZ + deltaY * Step
  {
    ClampZ(z + deltaY * Step) + deltaY * Step
  }

  /**
   * The camera looks down the negative z axis at the object placed `-z` in
   * front of it, so a negative `deltaY` lowers `z` and backs away, and a
   * positive one approaches. Over row `C` backing away from below the clamp
   * moves twice the listener's step, and approaching moves twice the step
   * up to the clamp.
   */
  lemma ZoomCoverSteps(z: real, deltaY: real)
    ensures z <= -MinCameraZ && deltaY <= 0.0 ==> ZoomCover(z, deltaY) == z + 2.0 * deltaY * Step
    ensures deltaY >= 0.0 ==> ZoomCover(z, deltaY) == ClampZ(z + 2.0 * deltaY * Step)
  {
  }

  /** Over the other rows the second listener's unclamped step can push `cameraZ` past the clamp. */
  lemma ZoomPrimaryPassesClamp()
    ensures ZoomPrimary(0.0, 100.0) == 1.5
    ensures ZoomPrimary(0.0, 100.0) > -MinCameraZ
  {
  }

  /**
   * Over the other rows backing away moves twice the step, and an approach
   * whose first step reaches the clamp always ends past it.
   */
  lemma ZoomPrimarySteps(z: real, deltaY: real)
    ensures z <= -MinCameraZ && deltaY <= 0.0 ==> ZoomPrimary(z, deltaY) == z + 2.0 * deltaY * Step
    ensures deltaY > 0.0 && z + deltaY * Step >= -MinCameraZ ==> ZoomPrimary(z, deltaY) > -MinCameraZ
  {
  }

  /** The evident intent of the wheel listeners: one clamped step per event. */
  function ZoomOnce(z: real, deltaY: real): real {
    ClampZ(z + deltaY * Step)
  }

  /** One clamped step never passes the clamp and moves by exactly one step when it can. */
  lemma ZoomOnceMeaning(z: real, deltaY: real)
    ensures ZoomOnce(z, deltaY) <= -MinCameraZ
    ensures ZoomOnce(z, deltaY) == z + deltaY * Step <==> z + deltaY * Step <= -MinCameraZ
  {
  }

  /** `reset-view-2` as written: it zeroes the angles, then reads the undeclared `initialCoverZ` and throws. */
  function ResetCoverAsWritten(p: Pose): Pose {
    p.(yaw := 0.0, pitch := 0.0)
  }

  /** A zoomed coverage camera keeps its distance through the reset. */
  lemma ResetCoverKeepsZoom(p: Pose, baseline: real)
    requires p.z != baseline
    ensures ResetCoverAsWritten(p).z != baseline
    ensures ResetCoverAsWritten(p) != Pose(0.0, 0.0, baseline)
  {
  }

  /* ---------------- bindings ---------------- */

  predicate NoDup(bs: seq<Canvas>) {
    forall i, j :: 0 <= i < j < |bs| ==> bs[i] != bs[j]
  }

  /** `if (!canvas.dataset.bound) { canvas.dataset.bound = '1'; ...addEventListener... }` */
  function Bind(bs: seq<Canvas>, c: Canvas): (r: seq<Canvas>)
    ensures c in r
    ensures forall x :: x in r <==> x in bs || x == c
    ensures NoDup(bs) ==> NoDup(r)
    ensures c in bs ==> r == bs
  {
    if c in bs then bs else bs + [c]
  }

  /** Binding a canvas twice is binding it once. */
  lemma BindIdempotent(bs: seq<Canvas>, c: Canvas)
    ensures Bind(Bind(bs, c), c) == Bind(bs, c)
  {
  }

  /** The bindings after slots `0 .. k` of row `r` are bound in turn. */
  function BindRow(bs: seq<Canvas>, r: Row, k: nat): (res: seq<Canvas>)
    ensures forall x :: x in res <==> x in bs || (x.row == r && x.slot < k)
    ensures NoDup(bs) ==> NoDup(res)
  {
    if k == 0 then bs else Bind(BindRow(bs, r, k - 1), Canvas(r, k - 1))
  }

  /* ---------------- loading ---------------- */

  /** What `loadPLY` produced for one file: `None` when the fetch failed, else the decoder's result. */
  type PlyOutcome = Option<Ply.Result<Ply.Cloud>>

  /** The cloud of an outcome, when `loadPLY` returned one. */
  predicate Returned(o: PlyOutcome) {
    o.Some? && o.value.Ok?
  }

  /** An outcome the decoder can produce: a returned cloud is well shaped (see `Ply.DecodeSpec`). */
  predicate Decodable(o: PlyOutcome) {
    Returned(o) ==> Ply.WellShaped(o.value.value)
  }

  /**
   * What one slot's load produced: `loadPLY`'s outcome with the context,
   * program and uniform locations `initGL` and `setupViewer` returned, or
   * `Unavailable` when the WebGL setup threw.
   */
  datatype SlotSource = Fetched(ply: PlyOutcome, gl: Handle, program: Handle, uniforms: Handle) | Unavailable

  /**
   * The viewport a slot gets, or `None` when `loadPLY` or the setup throws:
   * the setup's handles, and `nPoints` one point per three position numbers.
   * With `Ply.DecodeOutcome` the count is the header's vertex count (see
   * `LoadedCountIsVertexCount`).
   */
  function LoadedViewport(src: SlotSource): (v: Option<Viewport>)
    ensures v.Some? <==> src.Fetched? && Returned(src.ply)
    ensures v.Some? ==>
      && v.value.gl == src.gl && v.value.program == src.program && v.value.uniforms == src.uniforms
      && (Decodable(src.ply) ==> 3 * v.value.count == |src.ply.value.value.positions|)
  {
    if src.Unavailable? || !Returned(src.ply) then None
    else Some(Viewport(src.gl, src.program, src.uniforms, |src.ply.value.value.positions| / 3))
  }

  /** A slot loaded from a decoded text draws as many points as its header declares vertices. */
  lemma LoadedCountIsVertexCount(text: string, num: string -> real, gl: Handle, program: Handle, uniforms: Handle)
    ensures var v := LoadedViewport(Fetched(Some(Ply.DecodeSpec(text, num)), gl, program, uniforms));
      var n := Ply.VertexCount(Ply.HeaderCount(Text.Lines(text), num));
      v.Some? ==> n.Some? && v.value.count == n.value
  {
    Ply.DecodeOutcome(Text.Lines(text), num);
  }

  /** The viewports a loader's loop writes: those of the sources before the first one that throws. */
  function LoadedViews(srcs: seq<SlotSource>): (vs: seq<Viewport>)
    ensures |vs| <= |srcs|
    ensures forall i :: 0 <= i < |vs| ==> LoadedViewport(srcs[i]) == Some(vs[i])
    ensures |vs| < |srcs| ==> LoadedViewport(srcs[|vs|]).None?
  {
    if srcs == [] then []
    else match LoadedViewport(srcs[0])
      case None => []
      case Some(v) => [v] + LoadedViews(srcs[1..])
  }

  /** The registry after slots `0 .. |vs|` of row `r` are written with `vs`. */
  function WriteRow(s: Slots, r: Row, vs: seq<Viewport>): (s': Slots)
    requires |vs| <= |SlotsOf(s, r)|
    ensures |SlotsOf(s', r)| == |SlotsOf(s, r)|
    ensures forall i :: 0 <= i < |vs| ==> SlotsOf(s', r)[i] == Some(vs[i])
    ensures forall i :: |vs| <= i < |SlotsOf(s, r)| ==> SlotsOf(s', r)[i] == SlotsOf(s, r)[i]
    ensures forall r' :: r' != r ==> SlotsOf(s', r') == SlotsOf(s, r')
  {
    if vs == [] then s
    else WithSlot(WriteRow(s, r, vs[..|vs| - 1]), r, |vs| - 1, vs[|vs| - 1])
  }

  /* ---------------- the registry invariant ---------------- */

  /** The row arrays keep the lengths the page gives them. */
  predicate Shaped(s: Slots) {
    |s.top| <= 1 && |s.base| == GridLen && |s.ours| == GridLen && |s.cover| == CoverLen
  }

  /** Each canvas is bound at most once, and exactly the canvases with a loaded slot are bound. */
  ghost predicate Consistent(s: Slots, bs: seq<Canvas>) {
    NoDup(bs) && forall c :: c in bs <==> Present(s, c.row, c.slot)
  }

  /** The lengths of two registries agree row by row. */
  lemma ShapedBySlots(s: Slots, s': Slots)
    requires Shaped(s)
    requires forall r :: |SlotsOf(s', r)| == |SlotsOf(s, r)|
    ensures Shaped(s')
  {
    assert |SlotsOf(s', Top)| == |SlotsOf(s, Top)|;
    assert |SlotsOf(s', Base)| == |SlotsOf(s, Base)|;
    assert |SlotsOf(s', Ours)| == |SlotsOf(s, Ours)|;
    assert |SlotsOf(s', Cover)| == |SlotsOf(s, Cover)|;
  }

  /** Writing the top slot and binding its canvas keeps the invariant. */
  lemma TopWriteKeeps(s: Slots, bs: seq<Canvas>, v: Viewport)
    requires Shaped(s) && Consistent(s, bs)
    ensures Shaped(WithRow(s, Top, [Some(v)]))
    ensures Consistent(WithRow(s, Top, [Some(v)]), Bind(bs, Canvas(Top, 0)))
  {
    var s' := WithRow(s, Top, [Some(v)]);
    var bs' := Bind(bs, Canvas(Top, 0));
    forall c | true
      ensures c in bs' <==> Present(s', c.row, c.slot)
    {
      if c.row != Top {
        assert SlotsOf(s', c.row) == SlotsOf(s, c.row);
      }
    }
  }

  /** Writing the first `|vs|` slots of a row and binding their canvases keeps the invariant. */
  lemma RowWriteKeeps(s: Slots, bs: seq<Canvas>, r: Row, vs: seq<Viewport>)
    requires Shaped(s) && Consistent(s, bs)
    requires |vs| <= |SlotsOf(s, r)|
    ensures Shaped(WriteRow(s, r, vs))
    ensures Consistent(WriteRow(s, r, vs), BindRow(bs, r, |vs|))
  {
    var s' := WriteRow(s, r, vs);
    var bs' := BindRow(bs, r, |vs|);
    forall r' | true
      ensures |SlotsOf(s', r')| == |SlotsOf(s, r')|
    {
      if r' != r {
        assert SlotsOf(s', r') == SlotsOf(s, r');
      }
    }
    ShapedBySlots(s, s');
    forall c | true
      ensures c in bs' <==> Present(s', c.row, c.slot)
    {
      if c.row != r {
        assert SlotsOf(s', c.row) == SlotsOf(s, c.row);
      } else if c.slot < |vs| {
        assert SlotsOf(s', r)[c.slot] == Some(vs[c.slot]);
      } else if c.slot < |SlotsOf(s, r)| {
        assert SlotsOf(s', r)[c.slot] == SlotsOf(s, r)[c.slot];
      }
    }
  }

  /**
   * A row loaded into `mid`, which agrees with `s0` on that row, holds what
   * writing the same viewports into `s0` gives.
   */
  lemma RowOfWrite(s0: Slots, mid: Slots, s: Slots, r: Row, vs: seq<Viewport>)
    requires SlotsOf(mid, r) == SlotsOf(s0, r) && |vs| <= |SlotsOf(s0, r)|
    requires |SlotsOf(s, r)| == |SlotsOf(mid, r)|
    requires forall i :: 0 <= i < |vs| ==> SlotsOf(s, r)[i] == Some(vs[i])
    requires forall i :: |vs| <= i < |SlotsOf(mid, r)| ==> SlotsOf(s, r)[i] == SlotsOf(mid, r)[i]
    ensures SlotsOf(s, r) == SlotsOf(WriteRow(s0, r, vs), r)
  {
  }

  /** Writing one more slot extends the written prefix by one. */
  lemma WriteRowStep(s: Slots, r: Row, vs: seq<Viewport>, i: nat)
    requires i < |vs| <= |SlotsOf(s, r)|
    ensures i < |SlotsOf(WriteRow(s, r, vs[..i]), r)|
    ensures WriteRow(s, r, vs[..i + 1]) == WithSlot(WriteRow(s, r, vs[..i]), r, i, vs[i])
  {
    assert vs[..i + 1][..i] == vs[..i];
  }

  /** What writing a row gives depends on that row alone. */
  lemma WriteRowLocal(s0: Slots, s1: Slots, r: Row, vs: seq<Viewport>)
    requires SlotsOf(s0, r) == SlotsOf(s1, r) && |vs| <= |SlotsOf(s0, r)|
    ensures SlotsOf(WriteRow(s0, r, vs), r) == SlotsOf(WriteRow(s1, r, vs), r)
  {
    RowOfWrite(s0, s1, WriteRow(s1, r, vs), r, vs);
  }

  /* ---------------- the page ---------------- */

  class Viewer {
    var initialCameraZ: real
    var cameraYaw: real
    var cameraPitch: real
    var cameraZ: real
    var cam2Yaw: real
    var cam2Pitch: real
    var cam2Z: real
    /**
     * The coverage baseline `reset-view-2` reads. The script never declares
     * it; only the corrected loader and reset below use it.
     */
    var initialCoverZ: real
    var isDragging: bool
    var lastX: real
    var lastY: real
    /** `activeRow`: the row under the pointer, `null` outside every canvas. */
    var activeRow: Option<Row>
    /** `glCtx`, `program`, `uniLoc` and `nPoints` together. */
    var slots: Slots
    /** The canvases whose `dataset.bound` is set, in binding order. */
    var bindings: seq<Canvas>

    ghost predicate Valid()
      reads this
    {
      Shaped(slots) && Consistent(slots, bindings)
    }

    function PrimaryPose(): Pose
      reads this
    {
      Pose(cameraYaw, cameraPitch, cameraZ)
    }

    function CoverPose(): Pose
      reads this
    {
      Pose(cam2Yaw, cam2Pitch, cam2Z)
    }

    /** The globals as the script starts: both cameras at `-initialCameraZ`, nothing loaded. */
    constructor ()
      ensures Valid()
      ensures initialCameraZ == InitialCameraZ
      ensures PrimaryPose() == Pose(0.0, 0.0, -InitialCameraZ)
      ensures CoverPose() == Pose(0.0, 0.0, -InitialCameraZ) && initialCoverZ == -InitialCameraZ
      ensures !isDragging && lastX == 0.0 && lastY == 0.0 && activeRow == None
      ensures slots == InitialSlots() && bindings == []
    {
      initialCameraZ := InitialCameraZ;
      cameraYaw, cameraPitch, cameraZ := 0.0, 0.0, -InitialCameraZ;
      cam2Yaw, cam2Pitch, cam2Z := 0.0, 0.0, -InitialCameraZ;
      initialCoverZ := -InitialCameraZ;
      isDragging, lastX, lastY, activeRow := false, 0.0, 0.0, None;
      slots := InitialSlots();
      bindings := [];
    }

    /* ---- canvas listeners ---- */

    /** `pointerenter`: the canvas's row becomes the active row. */
    method PointerEnter(c: Canvas)
      modifies this`activeRow
      ensures activeRow == if c in bindings then Some(c.row) else old(activeRow)
    {
      if c in bindings {
        activeRow := Some(c.row);
      }
    }

    /** `pointerleave`: no row is active. */
    method PointerLeave(c: Canvas)
      modifies this`activeRow
      ensures activeRow == if c in bindings then None else old(activeRow)
    {
      if c in bindings {
        activeRow := None;
      }
    }

    /** `pointerdown`: a drag starts at the pointer, whichever row is active. */
    method PointerDown(c: Canvas, x: real, y: real)
      modifies this`isDragging, this`lastX, this`lastY
      ensures c in bindings ==> isDragging && lastX == x && lastY == y
      ensures c !in bindings ==> isDragging == old(isDragging) && lastX == old(lastX) && lastY == old(lastY)
    {
      if c in bindings {
        isDragging, lastX, lastY := true, x, y;
      }
    }

    /**
     * `pointermove`: while dragging over the active row, `C` rotates the
     * coverage camera and every other row the shared camera; the anchor
     * moves to the pointer. Any other move changes nothing.
     */
    method PointerMove(c: Canvas, x: real, y: real)
      modifies this`cameraYaw, this`cameraPitch, this`cam2Yaw, this`cam2Pitch, this`lastX, this`lastY
      ensures var acts := c in bindings && isDragging && activeRow == Some(c.row);
        && (acts ==> lastX == x && lastY == y)
        && (!acts ==> lastX == old(lastX) && lastY == old(lastY))
        && PrimaryPose() == (if acts && c.row != Cover then Drag(old(PrimaryPose()), x - old(lastX), y - old(lastY))
                             else old(PrimaryPose()))
        && CoverPose() == (if acts && c.row == Cover then Drag(old(CoverPose()), x - old(lastX), y - old(lastY))
                           else old(CoverPose()))
    {
      if c in bindings && isDragging && activeRow == Some(c.row) {
        if c.row == Cover {
          cam2Yaw := cam2Yaw + (x - lastX) * Step;
          cam2Pitch := cam2Pitch + (y - lastY) * Step;
        } else {
          cameraYaw := cameraYaw + (x - lastX) * Step;
          cameraPitch := cameraPitch + (y - lastY) * Step;
        }
        lastX, lastY := x, y;
      }
    }

    /** `pointerup`: the drag ends. */
    method PointerUp(c: Canvas)
      modifies this`isDragging
      ensures isDragging == if c in bindings then false else old(isDragging)
    {
      if c in bindings {
        isDragging := false;
      }
    }

    /* ---- window listeners ---- */

    /** The first `wheel` listener: it steps and clamps the camera of the active row. */
    method WheelClamped(deltaY: real) returns (prevented: bool)
      modifies this`cameraZ, this`cam2Z
      ensures prevented <==> activeRow.Some?
      ensures cam2Z == if activeRow == Some(Cover) then ClampZ(old(cam2Z) + deltaY * Step) else old(cam2Z)
      ensures cameraZ == if activeRow.Some? && activeRow != Some(Cover) then ClampZ(old(cameraZ) + deltaY * Step)
                         else old(cameraZ)
    {
      prevented := false;
      if activeRow == Some(Cover) {
        prevented := true;
        cam2Z := cam2Z + deltaY * Step;
        cam2Z := if cam2Z < -MinCameraZ then cam2Z else -MinCameraZ;
      } else if activeRow.Some? {
        prevented := true;
        cameraZ := cameraZ + deltaY * Step;
        cameraZ := if cameraZ < -MinCameraZ then cameraZ else -MinCameraZ;
      }
    }

    /** The second `wheel` listener: it clamps `cam2Z` but steps `cameraZ` without a clamp. */
    method WheelUnclamped(deltaY: real) returns (prevented: bool)
      modifies this`cameraZ, this`cam2Z
      ensures prevented <==> activeRow.Some?
      ensures cam2Z == if activeRow == Some(Cover) then ClampZ(old(cam2Z) + deltaY * Step) else old(cam2Z)
      ensures cameraZ == if activeRow.Some? && activeRow != Some(Cover) then old(cameraZ) + deltaY * Step
                         else old(cameraZ)
    {
      prevented := false;
      if activeRow == Some(Cover) {
        prevented := true;
        cam2Z := cam2Z + deltaY * Step;
        cam2Z := if cam2Z < -MinCameraZ then cam2Z else -MinCameraZ;
      } else if activeRow.Some? {
        prevented := true;
        cameraZ := cameraZ + deltaY * Step;
      }
    }

    /** One wheel event: both listeners run, in the order they were added. */
    method Wheel(deltaY: real) returns (prevented: bool)
      modifies this`cameraZ, this`cam2Z
      ensures prevented <==> activeRow.Some?
      ensures cam2Z == if activeRow == Some(Cover) then ZoomCover(old(cam2Z), deltaY) else old(cam2Z)
      ensures cameraZ == if activeRow.Some? && activeRow != Some(Cover) then ZoomPrimary(old(cameraZ), deltaY)
                         else old(cameraZ)
    {
      var first := WheelClamped(deltaY);
      var second := WheelUnclamped(deltaY);
      prevented := first || second;
    }

    /** `reset-view-1`: the shared camera returns to its calibrated pose. */
    method ResetView()
      modifies this`cameraYaw, this`cameraPitch, this`cameraZ
      ensures PrimaryPose() == Pose(0.0, 0.0, initialCameraZ)
    {
      cameraYaw := 0.0;
      cameraPitch := 0.0;
      cameraZ := initialCameraZ;
    }

    /**
     * `reset-view-2`: the angles return to zero; the handler then throws on
     * `initialCoverZ`, which the script never declares, so `cam2Z` stays.
     */
    method ResetCoverView()
      modifies this`cam2Yaw, this`cam2Pitch
      ensures CoverPose() == ResetCoverAsWritten(old(CoverPose()))
    {
      cam2Yaw := 0.0;
      cam2Pitch := 0.0;
    }

    /** The evident intent of `reset-view-2`: the coverage camera returns to its baseline. */
    method ResetCoverViewIntended()
      modifies this`cam2Yaw, this`cam2Pitch, this`cam2Z
      ensures CoverPose() == Pose(0.0, 0.0, initialCoverZ)
    {
      cam2Yaw := 0.0;
      cam2Pitch := 0.0;
      cam2Z := initialCoverZ;
    }

    /* ---- loaders ---- */

    /** Sets `dataset.bound` and adds the listeners unless the canvas already has them. */
    method BindOnce(c: Canvas)
      modifies this`bindings
      ensures bindings == Bind(old(bindings), c)
    {
      if c !in bindings {
        bindings := bindings + [c];
      }
    }

    /** `loadTopRow`: replaces the `top` arrays with the new viewport and binds `canvasPC0`. */
    method LoadTopRow(src: SlotSource) returns (ok: bool)
      requires Valid()
      modifies this`slots, this`bindings
      ensures Valid()
      ensures ok <==> LoadedViewport(src).Some?
      ensures ok ==>
        && slots == WithRow(old(slots), Top, [LoadedViewport(src)])
        && bindings == Bind(old(bindings), Canvas(Top, 0))
      ensures !ok ==> slots == old(slots) && bindings == old(bindings)
    {
      var v := LoadedViewport(src);
      if v.None? {
        return false;
      }
      TopWriteKeeps(slots, bindings, v.value);
      slots := WithRow(slots, Top, [v]);
      BindOnce(Canvas(Top, 0));
      ok := true;
    }

    /**
     * The loop of `loadRow` and of `loadCoverage`: slot by slot, write the
     * registry and bind the canvas; the first slot that throws ends the loop
     * and the slots written before it stay.
     */
    method LoadSlots(r: Row, srcs: seq<SlotSource>) returns (ok: bool)
      requires |srcs| <= |SlotsOf(slots, r)|
      modifies this`slots, this`bindings
      ensures ok <==> |LoadedViews(srcs)| == |srcs|
      ensures slots == WriteRow(old(slots), r, LoadedViews(srcs))
      ensures bindings == BindRow(old(bindings), r, |LoadedViews(srcs)|)
    {
      ghost var vs := LoadedViews(srcs);
      ghost var s0 := slots;
      var i := 0;
      while i < |srcs|
        invariant i <= |vs| <= |srcs| <= |SlotsOf(s0, r)|
        invariant slots == WriteRow(s0, r, vs[..i])
        invariant bindings == BindRow(old(bindings), r, i)
      {
        var v := LoadedViewport(srcs[i]);
        if v.None? {
          assert vs[..i] == vs;
          return false;
        }
        WriteRowStep(s0, r, vs, i);
        slots := WithSlot(slots, r, i, v.value);
        BindOnce(Canvas(r, i));
        i := i + 1;
      }
      assert vs[..i] == vs;
      ok := true;
    }

    /** `loadRow(rowKey, ids, paths)` for the `B` or `O` row. */
    method LoadRow(r: Row, srcs: seq<SlotSource>) returns (ok: bool)
      requires Valid() && (r == Base || r == Ours) && |srcs| == GridLen
      modifies this`slots, this`bindings
      ensures Valid()
      ensures ok <==> forall i :: 0 <= i < GridLen ==> LoadedViewport(srcs[i]).Some?
      ensures ok ==> forall i :: 0 <= i < GridLen ==> SlotsOf(slots, r)[i] == LoadedViewport(srcs[i])
      ensures forall i :: 0 <= i < |LoadedViews(srcs)| ==> SlotsOf(slots, r)[i] == LoadedViewport(srcs[i])
      ensures forall i :: |LoadedViews(srcs)| <= i < GridLen ==> SlotsOf(slots, r)[i] == SlotsOf(old(slots), r)[i]
      ensures forall r' :: r' != r ==> SlotsOf(slots, r') == SlotsOf(old(slots), r')
      ensures slots == WriteRow(old(slots), r, LoadedViews(srcs))
      ensures bindings == BindRow(old(bindings), r, |LoadedViews(srcs)|)
    {
      assert Shaped(slots);
      RowWriteKeeps(slots, bindings, r, LoadedViews(srcs));
      ok := LoadSlots(r, srcs);
    }

    /** `-maxR * 2.0` for a returned cloud, by the loop of `setInitialZoom` and `loadCoverage`. */
    static method ZoomFor(o: PlyOutcome, hypot: (real, real, real) -> Calibration.NonNeg) returns (z: real)
      requires Returned(o) && Decodable(o)
      ensures z == Calibration.CalibratedZ(o.value.value.positions, hypot)
    {
      var maxR := Calibration.MaxRadius(o.value.value.positions, hypot);
      z := -maxR * 2.0;
    }

    /**
     * `setInitialZoom(paths)`: `fetch` is what `loadPLY` produces for each
     * file. When the middle file loads, both z's become twice its radius,
     * behind it; with no paths the script loads `undefined`, which no file
     * answers.
     */
    method SetInitialZoom(paths: seq<Calibration.CloudPath>, fetch: Calibration.CloudPath -> PlyOutcome,
                          hypot: (real, real, real) -> Calibration.NonNeg) returns (ok: bool)
      requires forall i :: 0 <= i < |paths| ==> Decodable(fetch(paths[i]))
      modifies this`initialCameraZ, this`cameraZ
      ensures ok <==> |paths| > 0 && Returned(fetch(paths[Calibration.MiddleIndex(|paths|)]))
      ensures ok ==>
        var middle := fetch(paths[Calibration.MiddleIndex(|paths|)]);
        initialCameraZ == cameraZ == Calibration.CalibratedZ(middle.value.value.positions, hypot)
      ensures !ok ==> initialCameraZ == old(initialCameraZ) && cameraZ == old(cameraZ)
    {
      if |paths| == 0 {
        return false;
      }
      var middle := fetch(paths[Calibration.MiddleIndex(|paths|)]);
      if !Returned(middle) {
        return false;
      }
      var z := ZoomFor(middle, hypot);
      initialCameraZ := z;
      cameraZ := z;
      ok := true;
    }

    /**
     * `loadHouse(house)`: the top row, the initial zoom from the middle BASE
     * path (the t = 45 cloud), then the `B` and `O` rows; the first step that
     * throws ends it, and what the steps before it wrote stays.
     */
    method LoadHouse(house: string, top: SlotSource, fetch: Calibration.CloudPath -> PlyOutcome,
                     base: seq<SlotSource>, ours: seq<SlotSource>,
                     hypot: (real, real, real) -> Calibration.NonNeg) returns (ok: bool)
      requires Valid() && forall p :: Decodable(fetch(p))
      requires |base| == GridLen && |ours| == GridLen
      modifies this`slots, this`bindings, this`initialCameraZ, this`cameraZ
      ensures Valid()
      ensures var middle := fetch(Calibration.CloudPath(house, Calibration.Base, 45));
        && (ok <==>
              && LoadedViewport(top).Some?
              && Returned(middle)
              && (forall i :: 0 <= i < GridLen ==> LoadedViewport(base[i]).Some?)
              && (forall i :: 0 <= i < GridLen ==> LoadedViewport(ours[i]).Some?))
        && (LoadedViewport(top).Some? && Returned(middle) ==>
              initialCameraZ == cameraZ == Calibration.CalibratedZ(middle.value.value.positions, hypot))
        && (!(LoadedViewport(top).Some? && Returned(middle)) ==>
              initialCameraZ == old(initialCameraZ) && cameraZ == old(cameraZ))
      ensures SlotsOf(slots, Cover) == SlotsOf(old(slots), Cover)
      ensures LoadedViewport(top).Some? ==> SlotsOf(slots, Top) == [LoadedViewport(top)]
      ensures LoadedViewport(top).None? ==> slots == old(slots) && bindings == old(bindings)
      ensures var reached := LoadedViewport(top).Some? && Returned(fetch(Calibration.CloudPath(house, Calibration.Base, 45)));
        && (reached ==> SlotsOf(slots, Base) == SlotsOf(WriteRow(old(slots), Base, LoadedViews(base)), Base))
        && (!reached ==> SlotsOf(slots, Base) == SlotsOf(old(slots), Base))
        && (reached && |LoadedViews(base)| == GridLen ==>
              SlotsOf(slots, Ours) == SlotsOf(WriteRow(old(slots), Ours, LoadedViews(ours)), Ours))
        && (!(reached && |LoadedViews(base)| == GridLen) ==> SlotsOf(slots, Ours) == SlotsOf(old(slots), Ours))
    {
      ghost var s0 := slots;
      ghost var middle := fetch(Calibration.CloudPath(house, Calibration.Base, 45));
      ok := LoadTopRow(top);
      if !ok {
        return;
      }
      assert SlotsOf(slots, Top) == [LoadedViewport(top)];
      assert SlotsOf(slots, Cover) == SlotsOf(s0, Cover);
      assert SlotsOf(slots, Base) == SlotsOf(s0, Base) && SlotsOf(slots, Ours) == SlotsOf(s0, Ours);
      var basePaths := Calibration.BuildPaths(house, Calibration.Base);
      Calibration.MiddlePathIsT45(house, Calibration.Base);
      ok := SetInitialZoom(basePaths, fetch, hypot);
      if !ok {
        return;
      }
      ghost var s1 := slots;
      ok := LoadGrid(base, ours);
      WriteRowLocal(s0, s1, Base, LoadedViews(base));
      WriteRowLocal(s0, s1, Ours, LoadedViews(ours));
    }

    /**
     * The two `loadRow` awaits that end `loadHouse`: the `B` row, then the
     * `O` row only if every `B` slot loaded.
     */
    method LoadGrid(base: seq<SlotSource>, ours: seq<SlotSource>) returns (ok: bool)
      requires Valid() && |base| == GridLen && |ours| == GridLen
      modifies this`slots, this`bindings
      ensures Valid()
      ensures ok <==>
        && (forall i :: 0 <= i < GridLen ==> LoadedViewport(base[i]).Some?)
        && (forall i :: 0 <= i < GridLen ==> LoadedViewport(ours[i]).Some?)
      ensures SlotsOf(slots, Top) == SlotsOf(old(slots), Top) && SlotsOf(slots, Cover) == SlotsOf(old(slots), Cover)
      ensures SlotsOf(slots, Base) == SlotsOf(WriteRow(old(slots), Base, LoadedViews(base)), Base)
      ensures |LoadedViews(base)| == GridLen ==>
        SlotsOf(slots, Ours) == SlotsOf(WriteRow(old(slots), Ours, LoadedViews(ours)), Ours)
      ensures |LoadedViews(base)| < GridLen ==> SlotsOf(slots, Ours) == SlotsOf(old(slots), Ours)
    {
      ghost var s0 := slots;
      ok := LoadRow(Base, base);
      if !ok {
        return;
      }
      ghost var s1 := slots;
      assert SlotsOf(s1, Ours) == SlotsOf(s0, Ours);
      ok := LoadRow(Ours, ours);
      WriteRowLocal(s0, s1, Ours, LoadedViews(ours));
      assert SlotsOf(slots, Base) == SlotsOf(s1, Base);
    }

    /**
     * `loadCoverage`: the `C` row's two slots, then a second `loadPLY` of the
     * first file (`reload`) from which `cam2Z` is calibrated.
     */
    method LoadCoverage(srcs: seq<SlotSource>, reload: PlyOutcome,
                        hypot: (real, real, real) -> Calibration.NonNeg) returns (ok: bool)
      requires Valid() && Decodable(reload) && |srcs| == CoverLen
      modifies this`slots, this`bindings, this`cam2Z
      ensures Valid()
      ensures ok <==> |LoadedViews(srcs)| == CoverLen && Returned(reload)
      ensures slots == WriteRow(old(slots), Cover, LoadedViews(srcs))
      ensures bindings == BindRow(old(bindings), Cover, |LoadedViews(srcs)|)
      ensures ok ==> cam2Z == Calibration.CalibratedZ(reload.value.value.positions, hypot)
      ensures !ok ==> cam2Z == old(cam2Z)
    {
      assert Shaped(slots);
      RowWriteKeeps(slots, bindings, Cover, LoadedViews(srcs));
      ok := LoadSlots(Cover, srcs);
      if !ok {
        return;
      }
      if !Returned(reload) {
        return false;
      }
      cam2Z := ZoomFor(reload, hypot);
    }

    /**
     * The evident intent of `loadCoverage`: the calibrated `cam2Z` is also
     * kept as the baseline `reset-view-2` returns to.
     */
    method LoadCoverageIntended(srcs: seq<SlotSource>, reload: PlyOutcome,
                                hypot: (real, real, real) -> Calibration.NonNeg) returns (ok: bool)
      requires Valid() && Decodable(reload) && |srcs| == CoverLen
      modifies this`slots, this`bindings, this`cam2Z, this`initialCoverZ
      ensures Valid()
      ensures ok <==> |LoadedViews(srcs)| == CoverLen && Returned(reload)
      ensures slots == WriteRow(old(slots), Cover, LoadedViews(srcs))
      ensures bindings == BindRow(old(bindings), Cover, |LoadedViews(srcs)|)
      ensures ok ==> initialCoverZ == cam2Z == Calibration.CalibratedZ(reload.value.value.positions, hypot)
      ensures !ok ==> cam2Z == old(cam2Z) && initialCoverZ == old(initialCoverZ)
    {
      ok := LoadCoverage(srcs, reload, hypot);
      if ok {
        initialCoverZ := cam2Z;
      }
    }

    /* ---- rendering ---- */

    /** One frame of `render`: every present slot, row by row, with its row's camera. */
    method Render() returns (draws: seq<Draw>)
      ensures draws == Plan(slots, PrimaryPose(), CoverPose())
    {
      var p1, p2 := PrimaryPose(), CoverPose();
      draws := [];
      var k := 0;
      while k < |RenderOrder|
        invariant k <= |RenderOrder|
        invariant draws == RowsDraws(slots, RenderOrder[..k], p1, p2)
      {
        var r := RenderOrder[k];
        var row := SlotsOf(slots, r);
        var len := if r == Cover then CoverLen else if r == Top then 1 else GridLen;
        var i := 0;
        while i < len
          invariant i <= len == RowLen(r)
          invariant draws == RowsDraws(slots, RenderOrder[..k], p1, p2) + RowDraws(slots, r, i, p1, p2)
        {
          if i < |row| && row[i].Some? {
            var v := row[i].value;
            var cam := if r == Cover then Secondary else Primary;
            draws := draws + [Draw(Canvas(r, i), v.gl, v.program, v.uniforms, v.count, cam,
                                   if r == Cover then p2 else p1)];
          }
          i := i + 1;
        }
        assert RenderOrder[..k + 1][..k] == RenderOrder[..k];
        k := k + 1;
      }
      assert RenderOrder[..4] == RenderOrder;
    }
  }
}
