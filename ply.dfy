/**
 * The ASCII PLY vertex-list loader of main.js (`loadPLY`): a header scan that
 * finds the vertex count and the first data line, then a row loop that fills
 * two flat buffers of three numbers per vertex. `Number(...)` is the
 * parameter `num`, left uninterpreted.
 */
module Ply {
  import opened Wrappers
  import opened Text

  const VertexPrefix: string := "element vertex"
  const EndHeader: string := "end_header"

  /** Why a decode throws. */
  datatype DecodeError =
    | BadVertexCount(count: real)   // `nv * 3` is -1 or less: `new Float32Array` throws a RangeError
    | MissingRow(row: nat)          // `lines[start + row]` is undefined, so `.split` throws
    | BufferOverrun(row: nat)       // row `row` does not fit the buffers: `set` throws a RangeError

  datatype Result<T> = Ok(value: T) | Err(error: DecodeError)

  /** The loader's return value: `{positions, colors}`, flattened XYZ and RGB. */
  datatype Cloud = Cloud(positions: seq<real>, colors: seq<real>)

  predicate IsVertexLine(line: string) {
    StartsWith(line, VertexPrefix)
  }

  predicate IsEndHeader(line: string) {
    Trim(line) == EndHeader
  }

  /**
   * `+line.split(/\s+/)[2]`. A line with fewer than three fields yields
   * `+undefined`, which is NaN; a NaN count allocates empty buffers and runs no
   * row, exactly like 0, so it is modelled as 0.
   */
  function CountOf(line: string, num: string -> real): real {
    var fields := Fields(line);
    if |fields| < 3 then 0.0 else num(fields[2])
  }

  /**
   * On a line `element vertex w`, with a single space before a word `w`, the
   * count is `Number(w)`.
   */
  lemma CountOfVertexLine(w: string, num: string -> real)
    requires w != [] && forall j :: 0 <= j < |w| ==> !IsSpace(w[j])
    ensures IsVertexLine(VertexPrefix + " " + w)
    ensures CountOf(VertexPrefix + " " + w, num) == num(w)
  {
    var line := VertexPrefix + " " + w;
    var pieces := ["element", "vertex", w];
    assert Join(pieces, ' ') == line by {
      assert Join(pieces[2..], ' ') == w;
      assert Join(pieces[1..], ' ') == "vertex" + [' '] + w;
    }
    SplitJoin(pieces, ' ', IsSpace);
    assert line == VertexPrefix + (" " + w);
  }

  /** The first index at or after `i` whose line satisfies `p`, or `|lines|`. */
  function FindFirst(lines: seq<string>, i: nat, p: string -> bool): (e: nat)
    requires i <= |lines|
    ensures i <= e <= |lines|
    ensures e < |lines| ==> p(lines[e])
    ensures forall k :: i <= k < e ==> !p(lines[k])
    decreases |lines| - i
  {
    if i == |lines| then i
    else if p(lines[i]) then i
    else FindFirst(lines, i + 1, p)
  }

  /** The last index below `bound` whose line satisfies `p`. */
  function FindLast(lines: seq<string>, bound: nat, p: string -> bool): (j: Option<nat>)
    requires bound <= |lines|
    ensures j.Some? ==> j.value < bound && p(lines[j.value])
    ensures j.Some? ==> forall k :: j.value < k < bound ==> !p(lines[k])
    ensures j.None? ==> forall k :: 0 <= k < bound ==> !p(lines[k])
  {
    if bound == 0 then None
    else if p(lines[bound - 1]) then Some(bound - 1)
    else FindLast(lines, bound - 1, p)
  }

  /** The index of the first line that trims to `end_header`, or `|lines|` if none does. */
  function EndIndex(lines: seq<string>): (e: nat)
    ensures e <= |lines|
  {
    FindFirst(lines, 0, IsEndHeader)
  }

  /** The last line before `bound` that starts with `element vertex`. */
  function LastVertex(lines: seq<string>, bound: nat): Option<nat>
    requires bound <= |lines|
  {
    FindLast(lines, bound, IsVertexLine)
  }

  /** How far the header scan reads: up to and including the marker line. */
  function ScanBound(lines: seq<string>): (b: nat)
    ensures b <= |lines|
  {
    var e := EndIndex(lines);
    if e < |lines| then e + 1 else |lines|
  }

  /** The scan's `start`: the line after the marker, or 0 when there is no marker. */
  function HeaderStart(lines: seq<string>): (start: nat)
    ensures start <= |lines|
  {
    var e := EndIndex(lines);
    if e < |lines| then e + 1 else 0
  }

  /** The count held after reading the lines below `i`: that of the last vertex line among them, else 0. */
  function CountAt(lines: seq<string>, i: nat, num: string -> real): real
    requires i <= |lines|
  {
    match LastVertex(lines, i)
    case None => 0.0
    case Some(j) => CountOf(lines[j], num)
  }

  /** The scan's `nv`: the count on the last vertex line it read, or the initial 0. */
  function HeaderCount(lines: seq<string>, num: string -> real): real {
    CountAt(lines, ScanBound(lines), num)
  }

  lemma CountStep(lines: seq<string>, i: nat, num: string -> real)
    requires i < |lines|
    ensures CountAt(lines, i + 1, num) == if IsVertexLine(lines[i]) then CountOf(lines[i], num) else CountAt(lines, i, num)
  {
  }

  lemma EndStep(lines: seq<string>, i: nat)
    requires i <= EndIndex(lines) && i < |lines|
    ensures IsEndHeader(lines[i]) ==> EndIndex(lines) == i
    ensures !IsEndHeader(lines[i]) ==> i < EndIndex(lines)
  {
    var e := FindFirst(lines, 0, IsEndHeader);
    assert e < |lines| ==> IsEndHeader(lines[e]);
  }

  /** The header loop of `loadPLY`, with its `break` at the marker. */
  method ScanHeader(lines: seq<string>, num: string -> real) returns (nv: real, start: nat)
    ensures start == HeaderStart(lines)
    ensures nv == HeaderCount(lines, num)
  {
    nv, start := 0.0, 0;
    var i := 0;
    while i < |lines|
      invariant 0 <= i <= EndIndex(lines)
      invariant start == 0
      invariant nv == CountAt(lines, i, num)
    {
      CountStep(lines, i, num);
      EndStep(lines, i);
      if IsVertexLine(lines[i]) {
        nv := CountOf(lines[i], num);
      }
      if IsEndHeader(lines[i]) {
        start := i + 1;
        break;
      }
      i := i + 1;
    }
  }

  /**
   * With a marker, data starts right after the first marker line; without
   * one, data starts at line 0.
   */
  lemma HeaderStartMeaning(lines: seq<string>)
    ensures HeaderStart(lines) > 0 ==>
      IsEndHeader(lines[HeaderStart(lines) - 1])
      && forall k :: 0 <= k < HeaderStart(lines) - 1 ==> !IsEndHeader(lines[k])
    ensures HeaderStart(lines) == 0 <==> forall k :: 0 <= k < |lines| ==> !IsEndHeader(lines[k])
  {
    var e := FindFirst(lines, 0, IsEndHeader);
    assert e < |lines| ==> IsEndHeader(lines[e]);
  }

  /**
   * The count is that of the last vertex line the scan read (the marker line
   * and those above it), whatever other header lines surround it.
   */
  lemma HeaderCountMeaning(lines: seq<string>, num: string -> real, j: nat)
    requires j < ScanBound(lines) && IsVertexLine(lines[j])
    requires forall k :: j < k < ScanBound(lines) ==> !IsVertexLine(lines[k])
    ensures HeaderCount(lines, num) == CountOf(lines[j], num)
  {
    var lv := FindLast(lines, ScanBound(lines), IsVertexLine);
    assert lv.Some?;
  }

  /** With no vertex line before the marker the count stays 0. */
  lemma HeaderCountDefault(lines: seq<string>, num: string -> real)
    requires forall k :: 0 <= k < ScanBound(lines) ==> !IsVertexLine(lines[k])
    ensures HeaderCount(lines, num) == 0.0
  {
  }

  /** `x` truncated towards zero, as ECMAScript's ToIntegerOrInfinity does. */
  function Truncate(x: real): (t: int)
    ensures x >= 0.0 ==> t as real <= x < t as real + 1.0
    ensures x < 0.0 ==> t as real - 1.0 < x <= t as real
  {
    if x >= 0.0 then x.Floor else -((-x).Floor)
  }

  /**
   * The length `new Float32Array(x)` allocates by ECMAScript's ToIndex: `x`
   * truncated towards zero, or `None` (a RangeError) when that is negative.
   */
  function Float32Length(x: real): (len: Option<nat>)
    ensures len.None? <==> x <= -1.0
    ensures len.Some? ==> len.value as real <= x + 1.0 && (x >= 0.0 ==> len.value as real <= x < len.value as real + 1.0)
  {
    var t := Truncate(x);
    if t < 0 then None else Some(t as nat)
  }

  /**
   * How many times `for (let i = 0; i < nv; i++)` runs: the turns `0 .. n - 1`
   * pass the test and turn `n` fails it.
   */
  function LoopTurns(nv: real): (n: nat)
    ensures nv <= n as real && (n > 0 ==> (n - 1) as real < nv)
  {
    if nv <= 0.0 then 0 else -((-nv).Floor)
  }

  /**
   * The number of vertices of a cloud with header count `nv`, or `None`
   * where no cloud comes back: a whole non-negative count, and any count
   * that `nv * 3` truncates to 0 without running a row.
   */
  function VertexCount(nv: real): Option<nat> {
    if 0.0 <= nv && nv == nv.Floor as real then Some(nv.Floor as nat)
    else if -1.0 < 3.0 * nv < 0.0 then Some(0)
    else None
  }

  /**
   * A count yields `n` vertices exactly when the buffers get `3 * n` slots
   * and the row loop runs `n` times, so that the rows fill the buffers.
   */
  lemma VertexCountMeaning(nv: real, n: nat)
    ensures VertexCount(nv) == Some(n) <==> Float32Length(3.0 * nv) == Some(3 * n) && LoopTurns(nv) == n
  {
    if Float32Length(3.0 * nv) == Some(3 * n) && LoopTurns(nv) == n && n > 0 {
      assert (n - 1) as real < nv;
      assert 3.0 * nv < (3 * n) as real + 1.0;
    }
  }

  /**
   * Every turn but the last fits the buffers and the last overruns them
   * unless the count is whole: the buffers hold between `3 * turns - 3` and
   * `3 * turns` slots.
   */
  lemma AllocationFits(nv: real)
    requires Float32Length(3.0 * nv).Some?
    ensures var len := Float32Length(3.0 * nv).value;
      len <= 3 * LoopTurns(nv) <= len + 3
  {
    var n := LoopTurns(nv);
    if n > 0 {
      assert (n - 1) as real < nv;
      assert n as real >= nv;
    }
  }

  /** `line.split(/\s+/).map(Number)` */
  function RowValues(line: string, num: string -> real): (p: seq<real>)
    ensures |p| >= 1
  {
    var fields := Fields(line);
    seq(|fields|, k requires 0 <= k < |fields| => num(fields[k]))
  }

  /** Component `c` of a row's position: the field, or the buffer's initial 0. */
  function PositionOf(p: seq<real>, c: nat): real {
    if c < |p| then p[c] else 0.0
  }

  /** Component `c` of a row's colour: field `3 + c` over 255 on a six-field row, else 0. */
  function ColorOf(p: seq<real>, c: nat): real
    requires c < 3
  {
    if |p| >= 6 then p[3 + c] / 255.0 else 0.0
  }

  /** The numeric fields of the `n` data rows from line `start` on. */
  function DataRows(lines: seq<string>, start: nat, n: nat, num: string -> real): (rows: seq<seq<real>>)
    requires start + n <= |lines|
    ensures |rows| == n
  {
    seq(n, i requires 0 <= i < n => RowValues(lines[start + i], num))
  }

  /** The position buffer of a sequence of rows, three numbers per row. */
  function Positions(rows: seq<seq<real>>): seq<real> {
    if rows == [] then []
    else
      var p := rows[|rows| - 1];
      Positions(rows[..|rows| - 1]) + [PositionOf(p, 0), PositionOf(p, 1), PositionOf(p, 2)]
  }

  /** The colour buffer of a sequence of rows, three numbers per row. */
  function Colors(rows: seq<seq<real>>): seq<real> {
    if rows == [] then []
    else
      var p := rows[|rows| - 1];
      Colors(rows[..|rows| - 1]) + [ColorOf(p, 0), ColorOf(p, 1), ColorOf(p, 2)]
  }

  /** The buffers `loadPLY` returns: equally long, three numbers per vertex. */
  predicate WellShaped(c: Cloud) {
    |c.positions| == |c.colors| && |c.positions| % 3 == 0
  }

  /**
   * Everything `loadPLY` returns or throws for given lines: the allocation
   * throws first, then the row loop throws at the first row that is missing
   * or that overruns the buffers; otherwise both buffers are full.
   */
  function DecodeLines(lines: seq<string>, num: string -> real): (res: Result<Cloud>)
    ensures res.Ok? ==> WellShaped(res.value)
  {
    Allocate(lines, HeaderCount(lines, num), HeaderStart(lines), num)
  }

  /** The allocation and the row loop, for the header's count `nv` and data start `start`. */
  function Allocate(lines: seq<string>, nv: real, start: nat, num: string -> real): (res: Result<Cloud>)
    requires start <= |lines|
    ensures res.Ok? ==> WellShaped(res.value)
  {
    match Float32Length(3.0 * nv)
    case None => Err(BadVertexCount(nv))
    case Some(len) =>
      var n := LoopTurns(nv);
      if |lines| < start + n then Err(MissingRow(|lines| - start))
      else if len < 3 * n then Err(BufferOverrun(n - 1))
      else
        var rows := DataRows(lines, start, n, num);
        BuffersLength(rows);
        Ok(Cloud(Positions(rows), Colors(rows)))
  }

  /** Everything `loadPLY` returns or throws for a fetched text; a returned cloud is well shaped. */
  function DecodeSpec(text: string, num: string -> real): (res: Result<Cloud>)
    ensures res.Ok? ==> WellShaped(res.value)
  {
    DecodeLines(Lines(text), num)
  }

  /**
   * Row `i` fills slots `3i .. 3i+3` of both buffers: the position from its
   * first up to three fields (missing ones stay 0), the colour from fields
   * 3..5 over 255 if and only if the row has at least six fields.
   */
  lemma {:induction false} BuffersAt(rows: seq<seq<real>>, i: nat, c: nat)
    requires i < |rows| && c < 3
    ensures |Positions(rows)| == 3 * |rows| == |Colors(rows)|
    ensures var p := rows[i];
      && Positions(rows)[3 * i + c] == (if c < |p| then p[c] else 0.0)
      && Colors(rows)[3 * i + c] == (if |p| >= 6 then p[3 + c] / 255.0 else 0.0)
  {
    var init := rows[..|rows| - 1];
    BuffersLength(init);
    if i < |rows| - 1 {
      BuffersAt(init, i, c);
      assert init[i] == rows[i];
    }
  }

  lemma {:induction false} BuffersLength(rows: seq<seq<real>>)
    ensures |Positions(rows)| == 3 * |rows| == |Colors(rows)|
  {
    if rows != [] {
      BuffersLength(rows[..|rows| - 1]);
    }
  }

  /**
   * A decode succeeds exactly when the count yields whole vertices (see
   * `VertexCountMeaning`) and at least that many lines follow the data start;
   * it then returns three numbers per vertex in each buffer. It throws at a
   * missing row exactly when the buffers were allocated and too few lines
   * follow, and overruns the buffers exactly when the lines are there but the
   * count is fractional.
   */
  lemma DecodeOutcome(lines: seq<string>, num: string -> real)
    ensures var nv := HeaderCount(lines, num);
      var n := VertexCount(nv);
      var res := DecodeLines(lines, num);
      && (res.Ok? <==> n.Some? && HeaderStart(lines) + n.value <= |lines|)
      && (res.Ok? ==> |res.value.positions| == 3 * n.value == |res.value.colors|)
      && (res.Err? && res.error.BadVertexCount? <==> Float32Length(3.0 * nv).None?)
      && (res.Err? && res.error.MissingRow? <==>
            Float32Length(3.0 * nv).Some? && |lines| < HeaderStart(lines) + LoopTurns(nv))
      && (res.Err? && res.error.BufferOverrun? <==>
            n.None? && Float32Length(3.0 * nv).Some? && HeaderStart(lines) + LoopTurns(nv) <= |lines|)
  {
    var nv := HeaderCount(lines, num);
    var turns := LoopTurns(nv);
    VertexCountMeaning(nv, turns);
    if Float32Length(3.0 * nv).Some? {
      AllocationFits(nv);
      if VertexCount(nv).Some? {
        VertexCountMeaning(nv, VertexCount(nv).value);
      }
    }
    if VertexCount(nv).Some? && HeaderStart(lines) + turns <= |lines| {
      BuffersLength(DataRows(lines, HeaderStart(lines), turns, num));
    }
  }

  /** `pos.set(p.slice(0, 3), 3 * i)` and `col.set(c, 3 * i)` for one row. */
  method FillRow(pos: array<real>, col: array<real>, i: nat, p: seq<real>)
    requires pos != col && pos.Length == col.Length && 3 * i + 3 <= pos.Length
    requires |p| >= 1 && pos[3 * i + 1] == 0.0 && pos[3 * i + 2] == 0.0
    modifies pos, col
    ensures pos[3 * i] == PositionOf(p, 0) && pos[3 * i + 1] == PositionOf(p, 1) && pos[3 * i + 2] == PositionOf(p, 2)
    ensures col[3 * i] == ColorOf(p, 0) && col[3 * i + 1] == ColorOf(p, 1) && col[3 * i + 2] == ColorOf(p, 2)
    ensures pos[..3 * i] == old(pos[..3 * i]) && col[..3 * i] == old(col[..3 * i])
    ensures forall k :: 3 * i + 3 <= k < pos.Length ==> pos[k] == old(pos[k])
    ensures forall k :: 3 * i + 3 <= k < col.Length ==> col[k] == old(col[k])
  {
    pos[3 * i] := p[0];
    if |p| > 1 { pos[3 * i + 1] := p[1]; }
    if |p| > 2 { pos[3 * i + 2] := p[2]; }
    var c := if |p| >= 6 then [p[3] / 255.0, p[4] / 255.0, p[5] / 255.0] else [0.0, 0.0, 0.0];
    col[3 * i], col[3 * i + 1], col[3 * i + 2] := c[0], c[1], c[2];
  }

  lemma DataRowsStep(lines: seq<string>, start: nat, i: nat, num: string -> real)
    requires start + i < |lines|
    ensures var p := RowValues(lines[start + i], num);
      && Positions(DataRows(lines, start, i + 1, num)) == Positions(DataRows(lines, start, i, num)) + [PositionOf(p, 0), PositionOf(p, 1), PositionOf(p, 2)]
      && Colors(DataRows(lines, start, i + 1, num)) == Colors(DataRows(lines, start, i, num)) + [ColorOf(p, 0), ColorOf(p, 1), ColorOf(p, 2)]
  {
    var rows := DataRows(lines, start, i + 1, num);
    assert rows[..i] == DataRows(lines, start, i, num);
  }

  lemma PrefixStep(a: seq<real>, i: nat)
    requires 3 * i + 3 <= |a|
    ensures a[..3 * i + 3] == a[..3 * i] + [a[3 * i], a[3 * i + 1], a[3 * i + 2]]
  {
  }

  /**
   * The row loop of `loadPLY`: `n` turns from line `start` into two fresh
   * buffers of `len` slots, which the caller's count makes at most three
   * slots short of `3 * n`.
   */
  method ReadRows(lines: seq<string>, start: nat, n: nat, len: nat, num: string -> real) returns (res: Result<Cloud>)
    requires start <= |lines|
    requires len <= 3 * n <= len + 3
    ensures |lines| < start + n ==> res == Err(MissingRow(|lines| - start))
    ensures start + n <= |lines| && len < 3 * n ==> res == Err(BufferOverrun(n - 1))
    ensures start + n <= |lines| && 3 * n <= len ==>
      var rows := DataRows(lines, start, n, num);
      res == Ok(Cloud(Positions(rows), Colors(rows)))
  {
    var pos := new real[len](_ => 0.0);
    var col := new real[len](_ => 0.0);
    for i := 0 to n
      invariant start + i <= |lines|
      invariant 3 * i <= len
      invariant pos[..3 * i] == Positions(DataRows(lines, start, i, num))
      invariant col[..3 * i] == Colors(DataRows(lines, start, i, num))
      invariant forall k :: 3 * i <= k < len ==> pos[k] == 0.0
    {
      if start + i == |lines| {
        return Err(MissingRow(i));
      }
      if len < 3 * i + 3 {
        return Err(BufferOverrun(i));
      }
      var p := RowValues(lines[start + i], num);
      FillRow(pos, col, i, p);
      DataRowsStep(lines, start, i, num);
      PrefixStep(pos[..], i);
      PrefixStep(col[..], i);
    }
    assert pos[..] == pos[..3 * n] && col[..] == col[..3 * n];
    return Ok(Cloud(pos[..], col[..]));
  }

  /** `loadPLY` once the text is fetched. */
  method Decode(text: string, num: string -> real) returns (res: Result<Cloud>)
    ensures res == DecodeSpec(text, num)
  {
    var lines := Lines(text);
    var nv, start := ScanHeader(lines, num);
    res := AllocateRows(lines, nv, start, num);
  }

  /** The part of `loadPLY` after the header loop. */
  method AllocateRows(lines: seq<string>, nv: real, start: nat, num: string -> real) returns (res: Result<Cloud>)
    requires start <= |lines|
    ensures res == Allocate(lines, nv, start, num)
  {
    var len := Float32Length(3.0 * nv);
    if len.None? {
      res := Err(BadVertexCount(nv));
    } else {
      AllocationFits(nv);
      res := ReadRows(lines, start, LoopTurns(nv), len.value, num);
    }
  }
}
