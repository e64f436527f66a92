/**
 * The viewer registry of main.js and the draw plan `render` executes over it.
 *
 * The source keeps four parallel objects (`glCtx`, `program`, `uniLoc`,
 * `nPoints`), each holding one array per row key. Every write to a slot sets
 * all four at once, so a slot is modelled as one optional `Viewport`
 * bundling the context, program, uniform locations and point count.
 */
module Registry {
  import opened Wrappers

  /** The row keys `'top'`, `'B'`, `'O'` and `'C'`. */
  datatype Row = Top | Base | Ours | Cover

  /** One canvas: row and slot (`canvasPC0`, `canvasB1..4`, `canvasO1..4`, `canvasC0..1`). */
  datatype Canvas = Canvas(row: Row, slot: nat)

  /** An opaque, non-null WebGL object: a context, a program or a uniform-location pair. */
  datatype Handle = Handle(id: nat)

  /** What one slot of the four registries holds once loaded. */
  datatype Viewport = Viewport(gl: Handle, program: Handle, uniforms: Handle, count: nat)

  /** The registry: one array of slots per row. */
  datatype Slots = Slots(top: seq<Option<Viewport>>, base: seq<Option<Viewport>>,
                         ours: seq<Option<Viewport>>, cover: seq<Option<Viewport>>)

  const GridLen: nat := 4
  const CoverLen: nat := 2

  /** The registries as the page defines them: `top` empty, every other slot null. */
  function InitialSlots(): (s: Slots)
    ensures s.top == []
    ensures |s.base| == |s.ours| == GridLen && |s.cover| == CoverLen
  {
    Slots([], seq(GridLen, _ => None), seq(GridLen, _ => None), seq(CoverLen, _ => None))
  }

  function SlotsOf(s: Slots, r: Row): seq<Option<Viewport>> {
    match r
    case Top => s.top
    case Base => s.base
    case Ours => s.ours
    case Cover => s.cover
  }

  /**
   * `len` in `render`: 1 for `top`, `GRID_LEN` for `B` and `O`, `COVER_LEN`
   * for `C`; for every row but `top` that is the length of the array the page
   * starts it with, and `top` holds one slot once loaded.
   */
  function RowLen(r: Row): (n: nat)
    ensures r != Top ==> n == |SlotsOf(InitialSlots(), r)|
    ensures r == Top ==> n == 1
  {
    if r == Cover then CoverLen else if r == Top then 1 else GridLen
  }

  /** Replaces a row's whole array, as `glCtx.top = [gl]` does. */
  function WithRow(s: Slots, r: Row, row: seq<Option<Viewport>>): (s': Slots)
    ensures SlotsOf(s', r) == row
    ensures forall r' :: r' != r ==> SlotsOf(s', r') == SlotsOf(s, r')
  {
    match r
    case Top => s.(top := row)
    case Base => s.(base := row)
    case Ours => s.(ours := row)
    case Cover => s.(cover := row)
  }

  /** Writes slot `i` of row `r`, as `glCtx[rowKey][i] = gl` and its three siblings do. */
  function WithSlot(s: Slots, r: Row, i: nat, v: Viewport): (s': Slots)
    requires i < |SlotsOf(s, r)|
    ensures |SlotsOf(s', r)| == |SlotsOf(s, r)|
    ensures SlotsOf(s', r)[i] == Some(v)
    ensures forall j :: 0 <= j < |SlotsOf(s, r)| && j != i ==> SlotsOf(s', r)[j] == SlotsOf(s, r)[j]
    ensures forall r' :: r' != r ==> SlotsOf(s', r') == SlotsOf(s, r')
  {
    WithRow(s, r, SlotsOf(s, r)[i := Some(v)])
  }

  /** Whether `render` finds a context at slot `i` of row `r` (an index past the array reads undefined). */
  predicate Present(s: Slots, r: Row, i: nat) {
    i < |SlotsOf(s, r)| && SlotsOf(s, r)[i].Some?
  }

  datatype Camera = Primary | Secondary

  /** The state a camera matrix is computed from. */
  datatype Pose = Pose(yaw: real, pitch: real, z: real)

  /** One `gl.drawArrays(gl.POINTS, 0, count)` with the program, uniforms and camera it uses. */
  datatype Draw = Draw(canvas: Canvas, gl: Handle, program: Handle, uniforms: Handle,
                       count: nat, camera: Camera, pose: Pose)

  /** `rowKey === 'C' ? camera2Matrix() : cameraMatrix()`: the coverage row alone uses the second camera. */
  function CameraOf(r: Row): (c: Camera)
    ensures c == Secondary <==> r == Cover
  {
    if r == Cover then Secondary else Primary
  }

  /** The draw `render` issues for a present slot. */
  function DrawAt(s: Slots, r: Row, i: nat, primary: Pose, secondary: Pose): Draw
    requires Present(s, r, i)
  {
    var v := SlotsOf(s, r)[i].value;
    Draw(Canvas(r, i), v.gl, v.program, v.uniforms, v.count, CameraOf(r),
         if CameraOf(r) == Secondary then secondary else primary)
  }

  /** The draws for slots `0 .. n` of row `r`, skipping absent ones: at most one per slot. */
  function RowDraws(s: Slots, r: Row, n: nat, primary: Pose, secondary: Pose): (ds: seq<Draw>)
    ensures |ds| <= n
  {
    if n == 0 then []
    else
      RowDraws(s, r, n - 1, primary, secondary)
      + (if Present(s, r, n - 1) then [DrawAt(s, r, n - 1, primary, secondary)] else [])
  }

  /** `['top', 'B', 'O', 'C'].forEach(...)` */
  const RenderOrder: seq<Row> := [Top, Base, Ours, Cover]

  /** The draws for the rows in `rows`, in that order. */
  function RowsDraws(s: Slots, rows: seq<Row>, primary: Pose, secondary: Pose): seq<Draw> {
    if rows == [] then []
    else
      var r := rows[|rows| - 1];
      RowsDraws(s, rows[..|rows| - 1], primary, secondary) + RowDraws(s, r, RowLen(r), primary, secondary)
  }

  /** Everything one frame of `render` draws. */
  function Plan(s: Slots, primary: Pose, secondary: Pose): seq<Draw> {
    RowsDraws(s, RenderOrder, primary, secondary)
  }

  function RowIndex(r: Row): nat {
    match r
    case Top => 0
    case Base => 1
    case Ours => 2
    case Cover => 3
  }

  /** Canvas `a` is drawn before canvas `b`: an earlier row, or the same row and a lower slot. */
  predicate Before(a: Canvas, b: Canvas) {
    RowIndex(a.row) < RowIndex(b.row) || (a.row == b.row && a.slot < b.slot)
  }

  /** Every draw of a row is a draw of one of its first `n` present slots, in slot order. */
  lemma {:induction false} RowDrawsSound(s: Slots, r: Row, n: nat, primary: Pose, secondary: Pose)
    ensures forall d :: d in RowDraws(s, r, n, primary, secondary) ==>
      d.canvas.row == r && d.canvas.slot < n && Present(s, r, d.canvas.slot)
      && d == DrawAt(s, r, d.canvas.slot, primary, secondary)
    ensures forall a, b :: 0 <= a < b < |RowDraws(s, r, n, primary, secondary)| ==>
      RowDraws(s, r, n, primary, secondary)[a].canvas.slot < RowDraws(s, r, n, primary, secondary)[b].canvas.slot
  {
    if n > 0 {
      RowDrawsSound(s, r, n - 1, primary, secondary);
    }
  }

  /** Every present slot among the first `n` of a row is drawn. */
  lemma {:induction false} RowDrawsComplete(s: Slots, r: Row, n: nat, i: nat, primary: Pose, secondary: Pose)
    requires i < n && Present(s, r, i)
    ensures DrawAt(s, r, i, primary, secondary) in RowDraws(s, r, n, primary, secondary)
  {
    if i < n - 1 {
      RowDrawsComplete(s, r, n - 1, i, primary, secondary);
    }
  }

  /**
   * `render` draws exactly the present slots within each row's length (`top` 1,
   * `B` and `O` 4, `C` 2), each with its own program, uniforms and point count,
   * and with the secondary camera if and only if the row is `C`.
   */
  lemma PlanDrawsPresentSlots(s: Slots, primary: Pose, secondary: Pose)
    ensures forall d :: d in Plan(s, primary, secondary) ==>
      && d.canvas.slot < RowLen(d.canvas.row) && Present(s, d.canvas.row, d.canvas.slot)
      && d == DrawAt(s, d.canvas.row, d.canvas.slot, primary, secondary)
      && d.count == SlotsOf(s, d.canvas.row)[d.canvas.slot].value.count
      && (d.camera == Secondary <==> d.canvas.row == Cover)
      && d.pose == (if d.canvas.row == Cover then secondary else primary)
    ensures forall r: Row, i: nat :: i < RowLen(r) && Present(s, r, i) ==>
      DrawAt(s, r, i, primary, secondary) in Plan(s, primary, secondary)
  {
    var p := Plan(s, primary, secondary);
    var t := RowDraws(s, Top, 1, primary, secondary);
    var b := RowDraws(s, Base, GridLen, primary, secondary);
    var o := RowDraws(s, Ours, GridLen, primary, secondary);
    var c := RowDraws(s, Cover, CoverLen, primary, secondary);
    PlanSegments(s, primary, secondary);
    forall d | d in p
      ensures d.canvas.slot < RowLen(d.canvas.row) && Present(s, d.canvas.row, d.canvas.slot)
      ensures d == DrawAt(s, d.canvas.row, d.canvas.slot, primary, secondary)
      ensures d.count == SlotsOf(s, d.canvas.row)[d.canvas.slot].value.count
      ensures (d.camera == Secondary <==> d.canvas.row == Cover)
      ensures d.pose == (if d.canvas.row == Cover then secondary else primary)
    {
      assert d in t || d in b || d in o || d in c;
      if d in t {
        RowDrawsSound(s, Top, 1, primary, secondary);
      } else if d in b {
        RowDrawsSound(s, Base, GridLen, primary, secondary);
      } else if d in o {
        RowDrawsSound(s, Ours, GridLen, primary, secondary);
      } else {
        RowDrawsSound(s, Cover, CoverLen, primary, secondary);
      }
      DrawAtMeaning(s, d.canvas.row, d.canvas.slot, primary, secondary);
    }
    forall r: Row, i: nat | i < RowLen(r) && Present(s, r, i)
      ensures DrawAt(s, r, i, primary, secondary) in p
    {
      RowDrawsComplete(s, r, RowLen(r), i, primary, secondary);
    }
  }

  /** A slot's draw uses that slot's registry entry and its row's camera. */
  lemma DrawAtMeaning(s: Slots, r: Row, i: nat, primary: Pose, secondary: Pose)
    requires Present(s, r, i)
    ensures var d := DrawAt(s, r, i, primary, secondary);
      && d.canvas == Canvas(r, i)
      && d.count == SlotsOf(s, r)[i].value.count
      && (d.camera == Secondary <==> r == Cover)
      && d.pose == (if r == Cover then secondary else primary)
  {
  }

  /** `render` draws in row order `top, B, O, C`, and within a row in slot order. */
  lemma PlanOrder(s: Slots, primary: Pose, secondary: Pose)
    ensures forall a, b :: 0 <= a < b < |Plan(s, primary, secondary)| ==>
      Before(Plan(s, primary, secondary)[a].canvas, Plan(s, primary, secondary)[b].canvas)
  {
    var p := Plan(s, primary, secondary);
    var t := RowDraws(s, Top, 1, primary, secondary);
    var b := RowDraws(s, Base, GridLen, primary, secondary);
    var o := RowDraws(s, Ours, GridLen, primary, secondary);
    var c := RowDraws(s, Cover, CoverLen, primary, secondary);
    PlanSegments(s, primary, secondary);
    RowDrawsSound(s, Top, 1, primary, secondary);
    RowDrawsSound(s, Base, GridLen, primary, secondary);
    RowDrawsSound(s, Ours, GridLen, primary, secondary);
    RowDrawsSound(s, Cover, CoverLen, primary, secondary);
    forall x, y | 0 <= x < y < |p|
      ensures Before(p[x].canvas, p[y].canvas)
    {
      SegmentOrder(t, b, o, c, x, y);
    }
  }

  /** A frame issues at most one draw per canvas of the page: 1 + 4 + 4 + 2. */
  lemma PlanSize(s: Slots, primary: Pose, secondary: Pose)
    ensures |Plan(s, primary, secondary)| <= 1 + 2 * GridLen + CoverLen
  {
    PlanSegments(s, primary, secondary);
  }

  lemma PlanSegments(s: Slots, primary: Pose, secondary: Pose)
    ensures Plan(s, primary, secondary) ==
      RowDraws(s, Top, 1, primary, secondary) + RowDraws(s, Base, GridLen, primary, secondary)
      + RowDraws(s, Ours, GridLen, primary, secondary) + RowDraws(s, Cover, CoverLen, primary, secondary)
  {
    var t := RowDraws(s, Top, 1, primary, secondary);
    var b := RowDraws(s, Base, GridLen, primary, secondary);
    var o := RowDraws(s, Ours, GridLen, primary, secondary);
    var c := RowDraws(s, Cover, CoverLen, primary, secondary);
    assert [Top][..0] == [];
    assert RowsDraws(s, [Top], primary, secondary) == t;
    assert [Top, Base][..1] == [Top];
    assert RowsDraws(s, [Top, Base], primary, secondary) == t + b;
    assert [Top, Base, Ours][..2] == [Top, Base];
    assert RowsDraws(s, [Top, Base, Ours], primary, secondary) == t + b + o;
    assert RenderOrder[..3] == [Top, Base, Ours];
    assert RowsDraws(s, RenderOrder, primary, secondary) == t + b + o + c;
  }

  /** Two positions of a four-segment concatenation whose segments hold rows 0..3 in slot order. */
  lemma SegmentOrder(t: seq<Draw>, b: seq<Draw>, o: seq<Draw>, c: seq<Draw>, x: nat, y: nat)
    requires forall d :: d in t ==> d.canvas.row == Top
    requires forall d :: d in b ==> d.canvas.row == Base
    requires forall d :: d in o ==> d.canvas.row == Ours
    requires forall d :: d in c ==> d.canvas.row == Cover
    requires forall u, v :: 0 <= u < v < |t| ==> t[u].canvas.slot < t[v].canvas.slot
    requires forall u, v :: 0 <= u < v < |b| ==> b[u].canvas.slot < b[v].canvas.slot
    requires forall u, v :: 0 <= u < v < |o| ==> o[u].canvas.slot < o[v].canvas.slot
    requires forall u, v :: 0 <= u < v < |c| ==> c[u].canvas.slot < c[v].canvas.slot
    requires x < y < |t + b + o + c|
    ensures Before((t + b + o + c)[x].canvas, (t + b + o + c)[y].canvas)
  {
    var p := t + b + o + c;
    var i, j := |t|, |t| + |b|;
    var k := j + |o|;
    if y < i {
      assert p[x] == t[x] && p[y] == t[y];
    } else if y < j {
      assert p[y] == b[y - i] && p[y] in b;
      if x >= i { assert p[x] == b[x - i]; } else { assert p[x] == t[x] && p[x] in t; }
    } else if y < k {
      assert p[y] == o[y - j] && p[y] in o;
      if x >= j { assert p[x] == o[x - j]; }
      else if x >= i { assert p[x] == b[x - i] && p[x] in b; }
      else { assert p[x] == t[x] && p[x] in t; }
    } else {
      assert p[y] == c[y - k] && p[y] in c;
      if x >= k { assert p[x] == c[x - k]; }
      else if x >= j { assert p[x] == o[x - j] && p[x] in o; }
      else if x >= i { assert p[x] == b[x - i] && p[x] in b; }
      else { assert p[x] == t[x] && p[x] in t; }
    }
  }
}
