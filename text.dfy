/**
 * The string operations the PLY loader relies on, with JavaScript's meaning:
 * `String.prototype.trim`, `String.prototype.startsWith` and
 * `String.prototype.split` with a regular expression that matches runs of
 * separators (`/\s+/` and `/\n+/`).
 */
module Text {

  /** The characters JavaScript's `\s` class and `trim` treat as white space. */
  predicate IsSpace(c: char) {
    c == ' ' || c == '\t' || c == '\n' || c == '\r'
    || c == 11 as char || c == 12 as char          // vertical tab, form feed
    || c == 0xA0 as char || c == 0x1680 as char     // no-break space, ogham space
    || (0x2000 as char <= c <= 0x200A as char)     // en quad .. hair space
    || c == 0x2028 as char || c == 0x2029 as char   // line and paragraph separators
    || c == 0x202F as char || c == 0x205F as char || c == 0x3000 as char
    || c == 0xFEFF as char                          // byte order mark
  }

  predicate IsNewline(c: char) {
    c == '\n'
  }

  /** `s.startsWith(p)`: `s` is `p` followed by something. */
  predicate StartsWith(s: string, p: string): (b: bool)
    ensures b <==> exists t :: s == p + t
  {
    assert |p| <= |s| ==> s == s[..|p|] + s[|p|..];
    |p| <= |s| && s[..|p|] == p
  }

  /** Drops the run of separators at the front of `s`. */
  function SkipRun(s: string, sep: char -> bool): (r: string)
    ensures |r| <= |s|
    ensures s != [] && sep(s[0]) ==> |r| < |s|
    ensures r == [] || !sep(r[0])
  {
    if s != [] && sep(s[0]) then SkipRun(s[1..], sep) else s
  }

  /**
   * `s.split(/sep+/)`: the pieces between maximal runs of separators. A
   * separator at either end leaves an empty first or last piece, and the
   * empty string splits into one empty piece.
   */
  function Split(s: string, sep: char -> bool): (pieces: seq<string>)
    ensures |pieces| >= 1
    ensures forall i, j :: 0 <= i < |pieces| && 0 <= j < |pieces[i]| ==> !sep(pieces[i][j])
    decreases |s|
  {
    if s == [] then [""]
    else if sep(s[0]) then [""] + Split(SkipRun(s, sep), sep)
    else
      var rest := Split(s[1..], sep);
      [[s[0]] + rest[0]] + rest[1..]
  }

  /** Joins pieces with `c`; `Split` undoes it on non-empty pieces with no separator. */
  function Join(pieces: seq<string>, c: char): (s: string)
    requires |pieces| >= 1
  {
    if |pieces| == 1 then pieces[0] else pieces[0] + [c] + Join(pieces[1..], c)
  }

  /**
   * Splitting undoes joining with a single separator, for pieces that are
   * non-empty and hold no separator.
   */
  lemma {:induction false} SplitJoin(pieces: seq<string>, c: char, sep: char -> bool)
    requires |pieces| >= 1 && sep(c)
    requires forall i :: 0 <= i < |pieces| ==> pieces[i] != []
    requires forall i, j :: 0 <= i < |pieces| && 0 <= j < |pieces[i]| ==> !sep(pieces[i][j])
    ensures Split(Join(pieces, c), sep) == pieces
  {
    var p := pieces[0];
    if |pieces| == 1 {
      SplitWord(p, [], sep);
      assert Split([], sep) == [""];
      assert p + [] == p && Join(pieces, c) == p;
    } else {
      var tail := Join(pieces[1..], c);
      SplitJoin(pieces[1..], c, sep);
      assert tail != [] && !sep(tail[0]) by {
        JoinStart(pieces[1..], c);
      }
      SkipRunOne(c, tail, sep);
      SplitWord(p, [c] + tail, sep);
      assert Join(pieces, c) == p + ([c] + tail);
      var y := Split([c] + tail, sep);
      assert y == [""] + pieces[1..];
      assert y[0] == "" && y[1..] == pieces[1..];
      assert p + y[0] == p;
      assert [p] + pieces[1..] == pieces;
    }
  }

  /** A word with no separator in front of a separator-led suffix stays whole. */
  lemma {:induction false} SplitWord(w: string, rest: string, sep: char -> bool)
    requires w != [] && forall j :: 0 <= j < |w| ==> !sep(w[j])
    requires rest == [] || sep(rest[0])
    ensures Split(w + rest, sep) == [w + Split(rest, sep)[0]] + Split(rest, sep)[1..]
    decreases |w|
  {
    var s := w + rest;
    var x := Split(rest, sep);
    assert s != [] && s[0] == w[0] && !sep(s[0]);
    assert s[1..] == w[1..] + rest;
    var tail := Split(s[1..], sep);
    assert Split(s, sep) == [[s[0]] + tail[0]] + tail[1..];
    if |w| > 1 {
      SplitWord(w[1..], rest, sep);
      assert tail[0] == w[1..] + x[0] && tail[1..] == x[1..];
      assert [w[0]] + (w[1..] + x[0]) == w + x[0];
    } else {
      assert w == [w[0]];
      assert s[1..] == rest && tail == x;
    }
  }

  lemma {:induction false} SkipRunOne(c: char, tail: string, sep: char -> bool)
    requires sep(c) && tail != [] && !sep(tail[0])
    ensures Split([c] + tail, sep) == [""] + Split(tail, sep)
  {
    var s := [c] + tail;
    assert s[1..] == tail;
    assert SkipRun(s[1..], sep) == tail;
  }

  lemma {:induction false} JoinStart(pieces: seq<string>, c: char)
    requires |pieces| >= 1 && pieces[0] != []
    ensures Join(pieces, c) != [] && Join(pieces, c)[0] == pieces[0][0]
  {
  }

  /** Drops leading white space: what goes is a run of spaces, what stays is a suffix. */
  function TrimStart(s: string): (r: string)
    ensures |r| <= |s| && r == s[|s| - |r|..]
    ensures forall k :: 0 <= k < |s| - |r| ==> IsSpace(s[k])
    ensures r == [] || !IsSpace(r[0])
  {
    if s != [] && IsSpace(s[0]) then TrimStart(s[1..]) else s
  }

  /** Drops trailing white space: what goes is a run of spaces, what stays is a prefix. */
  function TrimEnd(s: string): (r: string)
    ensures |r| <= |s| && r == s[..|r|]
    ensures forall k :: |r| <= k < |s| ==> IsSpace(s[k])
    ensures r == [] || !IsSpace(r[|r| - 1])
  {
    if s != [] && IsSpace(s[|s| - 1]) then TrimEnd(s[..|s| - 1]) else s
  }

  /**
   * `s.trim()`: the slice of `s` left after dropping a run of white space at
   * each end, `i` characters in front; neither end of the result is white
   * space, so no longer slice qualifies.
   */
  function Trim(s: string): (r: string)
    ensures var i := |s| - |TrimStart(s)|;
      && i + |r| <= |s| && r == s[i..i + |r|]
      && (forall k :: 0 <= k < i ==> IsSpace(s[k]))
      && (forall k :: i + |r| <= k < |s| ==> IsSpace(s[k]))
    ensures r == [] || (!IsSpace(r[0]) && !IsSpace(r[|r| - 1]))
  {
    var t := TrimStart(s);
    var r := TrimEnd(t);
    assert r != [] ==> r[0] == t[0];
    SliceOfSuffix(s, t, r);
    r
  }

  /** A prefix `r` of a suffix `t` of `s` is a slice of `s`, and what follows it in `t` follows it in `s`. */
  lemma SliceOfSuffix(s: string, t: string, r: string)
    requires |t| <= |s| && t == s[|s| - |t|..]
    requires |r| <= |t| && r == t[..|r|]
    requires forall k :: |r| <= k < |t| ==> IsSpace(t[k])
    ensures var i := |s| - |t|;
      && r == s[i..i + |r|]
      && forall k :: i + |r| <= k < |s| ==> IsSpace(s[k])
  {
    var i := |s| - |t|;
    forall k | i + |r| <= k < |s|
      ensures IsSpace(s[k])
    {
      assert s[k] == t[k - i];
    }
  }

  /** A string whose ends are not white space trims to itself. */
  lemma TrimKeeps(s: string)
    requires s == [] || (!IsSpace(s[0]) && !IsSpace(s[|s| - 1]))
    ensures Trim(s) == s
  {
  }

  /** Trimming twice is trimming once. */
  lemma TrimIdempotent(s: string)
    ensures Trim(Trim(s)) == Trim(s)
  {
    TrimKeeps(Trim(s));
  }

  /** `text.trim().split(/\n+/)` */
  function Lines(text: string): (lines: seq<string>)
    ensures |lines| >= 1
  {
    Split(Trim(text), IsNewline)
  }

  /** `line.split(/\s+/)` */
  function Fields(line: string): (fields: seq<string>)
    ensures |fields| >= 1
  {
    Split(line, IsSpace)
  }
}
