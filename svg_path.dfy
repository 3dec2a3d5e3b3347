/**
 * The ghost body's outline parser (`CGPath.make(fromSVGPath:)` in
 * GhostbusterQuest/GhostSpriteView.swift): the moveto, lineto, curveto and
 * closepath commands of SVG path data (section 8.3 of SVG 1.1), read with a
 * character scanner that skips spaces and commas. The scanner's input is
 * modelled as a sequence of tokens, each a letter or a number; the path
 * built is the sequence of elements appended to it.
 *
 * The source's loop never ends when a number follows a closepath or an
 * unrecognised letter: such a command consumes nothing and the scanner is
 * put back in front of the number each round (`StallAfterInertCommand`).
 * The parser is therefore specified for token sequences where every such
 * letter is followed by another letter or by the end (`WellFormed`).
 */
module SvgPath {

  import opened Common

  datatype Token = Letter(c: char) | Number(v: real)

  datatype Point = Point(x: real, y: real)

  const Origin := Point(0.0, 0.0)

  datatype PathElement = MoveTo(to: Point) | LineTo(to: Point) | CurveTo(control1: Point, control2: Point, to: Point) | Close

  /** The scanner position, the current point, the start of the subpath and the command in force. */
  datatype Scan = Scan(pos: nat, current: Point, start: Point, command: Option<char>)

  /** One round of the outer loop: the state after it and the elements it appended. */
  datatype Outcome = Outcome(next: Scan, out: seq<PathElement>)

  /** A run of an inner loop: the elements appended, the current point after it, and where it stopped reading. */
  datatype Emitted = Emitted(out: seq<PathElement>, current: Point, pos: nat)

  predicate IsNumberAt(toks: seq<Token>, i: int)
  {
    0 <= i < |toks| && toks[i].Number?
  }

  /** A letter that consumes no numbers: closepath or an unrecognised letter. */
  predicate Inert(c: char)
  {
    c != 'm' && c != 'M' && c != 'l' && c != 'L' && c != 'c' && c != 'C'
  }

  /** Every closepath or unrecognised letter is followed by a letter or by the end. */
  predicate WellFormed(toks: seq<Token>)
  {
    forall i :: 0 <= i < |toks| - 1 && toks[i].Letter? && Inert(toks[i].c) ==> toks[i + 1].Letter?
  }

  /** The number of consecutive numbers starting at position `p`. */
  function LeadingNumbers(toks: seq<Token>, p: nat): (n: nat)
    requires p <= |toks|
    ensures p + n <= |toks|
    ensures forall j :: p <= j < p + n ==> toks[j].Number?
    ensures !IsNumberAt(toks, p + n)
    decreases |toks| - p
  {
    if IsNumberAt(toks, p) then LeadingNumbers(toks, p + 1) + 1 else 0
  }

  /** A lowercase command's coordinates are offsets from the current point; an uppercase command's are absolute. */
  function Resolve(relative: bool, current: Point, x: real, y: real): Point
  {
    if relative then Point(current.x + x, current.y + y) else Point(x, y)
  }

  /** The lineto loop: one line per pair of numbers; a lone last number is consumed and dropped. */
  function LinesFrom(toks: seq<Token>, p: nat, current: Point, relative: bool): (r: Emitted)
    requires p <= |toks|
    ensures p <= r.pos <= |toks|
    ensures IsNumberAt(toks, p) ==> r.pos > p
    decreases |toks| - p
  {
    if IsNumberAt(toks, p) && IsNumberAt(toks, p + 1) then
      var point := Resolve(relative, current, toks[p].v, toks[p + 1].v);
      var rest := LinesFrom(toks, p + 2, point, relative);
      Emitted([LineTo(point)] + rest.out, rest.current, rest.pos)
    else
      Emitted([], current, if IsNumberAt(toks, p) then p + 1 else p)
  }

  /** Six numbers from position `p` on. */
  predicate SixNumbersAt(toks: seq<Token>, p: nat)
  {
    IsNumberAt(toks, p) && IsNumberAt(toks, p + 1) && IsNumberAt(toks, p + 2) &&
    IsNumberAt(toks, p + 3) && IsNumberAt(toks, p + 4) && IsNumberAt(toks, p + 5)
  }

  /** The curveto loop: one curve per group of six numbers; an incomplete last group is consumed and dropped. */
  function CurvesFrom(toks: seq<Token>, p: nat, current: Point, relative: bool): (r: Emitted)
    requires p <= |toks|
    ensures p <= r.pos <= |toks|
    ensures IsNumberAt(toks, p) ==> r.pos > p
    decreases |toks| - p
  {
    if SixNumbersAt(toks, p) then
      var c1 := Resolve(relative, current, toks[p].v, toks[p + 1].v);
      var c2 := Resolve(relative, current, toks[p + 2].v, toks[p + 3].v);
      var end := Resolve(relative, current, toks[p + 4].v, toks[p + 5].v);
      var rest := CurvesFrom(toks, p + 6, end, relative);
      Emitted([CurveTo(c1, c2, end)] + rest.out, rest.current, rest.pos)
    else
      Emitted([], current, p + LeadingNumbers(toks, p))
  }

  /** The `switch` on the command in force, reading from position `p`. */
  function Execute(toks: seq<Token>, st: Scan, p: nat): (o: Outcome)
    requires st.command.Some? && p <= |toks|
    ensures p <= o.next.pos <= |toks|
    ensures IsNumberAt(toks, p) && !Inert(st.command.value) ==> o.next.pos > p
    ensures o.next.command.Some? && (Inert(o.next.command.value) ==> o.next.command == st.command && o.next.pos == p)
  {
    var cmd := st.command.value;
    var relative := cmd == 'm' || cmd == 'l' || cmd == 'c';
    if cmd == 'm' || cmd == 'M' then
      if IsNumberAt(toks, p) && IsNumberAt(toks, p + 1) then
        var point := Resolve(relative, st.current, toks[p].v, toks[p + 1].v);
        Outcome(Scan(p + 2, point, point, Some(if cmd == 'm' then 'l' else 'L')), [MoveTo(point)])
      else
        Outcome(st.(pos := if IsNumberAt(toks, p) then p + 1 else p), [])
    else if cmd == 'c' || cmd == 'C' then
      var r := CurvesFrom(toks, p, st.current, relative);
      Outcome(Scan(r.pos, r.current, st.start, st.command), r.out)
    else if cmd == 'l' || cmd == 'L' then
      var r := LinesFrom(toks, p, st.current, relative);
      Outcome(Scan(r.pos, r.current, st.start, st.command), r.out)
    else if cmd == 'z' || cmd == 'Z' then
      Outcome(Scan(p, st.start, st.start, st.command), [Close])
    else
      Outcome(st.(pos := p), [])
  }

  /** The position of the next letter at or after `p`, or the end. */
  function NextLetter(toks: seq<Token>, p: nat): (q: nat)
    requires p <= |toks|
    ensures p <= q <= |toks| && (q < |toks| ==> toks[q].Letter?)
    ensures forall j :: p <= j < q ==> toks[j].Number?
  {
    p + LeadingNumbers(toks, p)
  }

  /**
   * One round of the outer loop: a letter becomes the command in force; a
   * number before any command is skipped together with everything up to
   * the next letter; a number after a command is left for the command to read.
   */
  function Step(toks: seq<Token>, st: Scan): (o: Outcome)
    requires st.pos < |toks|
  {
    match toks[st.pos]
    case Letter(c) => Execute(toks, st.(command := Some(c)), st.pos + 1)
    case Number(_) =>
      if st.command.None? then Outcome(st.(pos := NextLetter(toks, st.pos)), [])
      else Execute(toks, st, st.pos)
  }

  /** The scan state never has an inert command in front of a number. */
  predicate Resumable(toks: seq<Token>, st: Scan)
  {
    st.pos <= |toks| &&
    (st.command.Some? && Inert(st.command.value) && st.pos < |toks| ==> toks[st.pos].Letter?)
  }

  /** On well-formed input each round reads at least one token and keeps the scan resumable. */
  lemma StepProgress(toks: seq<Token>, st: Scan)
    requires WellFormed(toks) && Resumable(toks, st) && st.pos < |toks|
    ensures st.pos < Step(toks, st).next.pos <= |toks|
    ensures Resumable(toks, Step(toks, st).next)
  {
    var o := Step(toks, st);
    if toks[st.pos].Letter? && Inert(toks[st.pos].c) && o.next.pos < |toks| {
      assert toks[st.pos + 1].Letter?;
    }
  }

  /** The elements appended by the outer loop from a given state to the end of the input. */
  function Run(toks: seq<Token>, st: Scan): seq<PathElement>
    requires WellFormed(toks) && Resumable(toks, st)
    decreases |toks| - st.pos
  {
    if st.pos >= |toks| then []
    else
      StepProgress(toks, st);
      var o := Step(toks, st);
      o.out + Run(toks, o.next)
  }

  /** The outer loop from a state: one round, then the loop from the state that round leaves. */
  lemma RunUnfold(toks: seq<Token>, st: Scan)
    requires WellFormed(toks) && Resumable(toks, st) && st.pos < |toks|
    ensures Resumable(toks, Step(toks, st).next) && st.pos < Step(toks, st).next.pos
    ensures Run(toks, st) == Step(toks, st).out + Run(toks, Step(toks, st).next)
  {
    StepProgress(toks, st);
  }

  const Initial := Scan(0, Origin, Origin, None)

  /**
   * The path calls `CGPath.make(fromSVGPath:)` makes, in order. A path
   * without a current point ignores lines, curves and closes made before
   * the first moveto; that rule is not modelled.
   */
  function Parse(toks: seq<Token>): seq<PathElement>
    requires WellFormed(toks)
  {
    Run(toks, Initial)
  }

  /** The lineto loop over the scanner: reads pairs of numbers until one is missing. */
  method ReadLines(toks: seq<Token>, p: nat, start: Point, relative: bool) returns (out: seq<PathElement>, current: Point, index: nat)
    requires p <= |toks|
    ensures Emitted(out, current, index) == LinesFrom(toks, p, start, relative)
  {
    out, current, index := [], start, p;
    while true
      invariant p <= index <= |toks|
      invariant out + LinesFrom(toks, index, current, relative).out == LinesFrom(toks, p, start, relative).out
      invariant LinesFrom(toks, index, current, relative).current == LinesFrom(toks, p, start, relative).current
      invariant LinesFrom(toks, index, current, relative).pos == LinesFrom(toks, p, start, relative).pos
      decreases |toks| - index
    {
      if !IsNumberAt(toks, index) { break; }
      var x := toks[index].v;
      index := index + 1;
      if !IsNumberAt(toks, index) { break; }
      var y := toks[index].v;
      index := index + 1;
      var point := Resolve(relative, current, x, y);
      out := out + [LineTo(point)];
      current := point;
    }
  }

  /** The scanner reads a number at `next` when one is there; `LeadingNumbers` counts it. */
  lemma ScanStopsAt(toks: seq<Token>, p: nat, k: nat)
    requires p + k <= |toks|
    requires forall j :: p <= j < p + k ==> toks[j].Number?
    requires !IsNumberAt(toks, p + k)
    ensures LeadingNumbers(toks, p) == k
  {
    LeadingNumbersShift(toks, p, k);
  }

  /**
   * The `guard` of the curveto loop: scans six numbers from `p`, stopping
   * at the first token that is not one; the numbers scanned before a
   * failure stay consumed.
   */
  method ScanCurveNumbers(toks: seq<Token>, p: nat) returns (ok: bool, x1: real, y1: real, x2: real, y2: real, x: real, y: real, next: nat)
    requires p <= |toks|
    ensures next <= |toks|
    ensures ok <==> SixNumbersAt(toks, p)
    ensures ok ==> next == p + 6
    ensures ok ==> x1 == toks[p].v && y1 == toks[p + 1].v && x2 == toks[p + 2].v
    ensures ok ==> y2 == toks[p + 3].v && x == toks[p + 4].v && y == toks[p + 5].v
    ensures !ok ==> next == p + LeadingNumbers(toks, p)
  {
    ok, x1, y1, x2, y2, x, y, next := false, 0.0, 0.0, 0.0, 0.0, 0.0, 0.0, p;
    if !IsNumberAt(toks, next) { ScanStopsAt(toks, p, 0); return; }
    x1, next := toks[next].v, next + 1;
    if !IsNumberAt(toks, next) { ScanStopsAt(toks, p, 1); return; }
    y1, next := toks[next].v, next + 1;
    if !IsNumberAt(toks, next) { ScanStopsAt(toks, p, 2); return; }
    x2, next := toks[next].v, next + 1;
    if !IsNumberAt(toks, next) { ScanStopsAt(toks, p, 3); return; }
    y2, next := toks[next].v, next + 1;
    if !IsNumberAt(toks, next) { ScanStopsAt(toks, p, 4); return; }
    x, next := toks[next].v, next + 1;
    if !IsNumberAt(toks, next) { ScanStopsAt(toks, p, 5); return; }
    y, next := toks[next].v, next + 1;
    ok := true;
  }

  /** The curveto loop over the scanner: reads groups of six numbers until one is missing. */
  method ReadCurves(toks: seq<Token>, p: nat, start: Point, relative: bool) returns (out: seq<PathElement>, current: Point, index: nat)
    requires p <= |toks|
    ensures Emitted(out, current, index) == CurvesFrom(toks, p, start, relative)
  {
    out, current, index := [], start, p;
    while true
      invariant p <= index <= |toks|
      invariant out + CurvesFrom(toks, index, current, relative).out == CurvesFrom(toks, p, start, relative).out
      invariant CurvesFrom(toks, index, current, relative).current == CurvesFrom(toks, p, start, relative).current
      invariant CurvesFrom(toks, index, current, relative).pos == CurvesFrom(toks, p, start, relative).pos
      decreases |toks| - index
    {
      ghost var q := index;
      var ok, x1, y1, x2, y2, x, y, next := ScanCurveNumbers(toks, index);
      index := next;
      if !ok {
        assert CurvesFrom(toks, q, current, relative) == Emitted([], current, index);
        break;
      }
      var cp1 := Resolve(relative, current, x1, y1);
      var cp2 := Resolve(relative, current, x2, y2);
      var end := Resolve(relative, current, x, y);
      ghost var rest := CurvesFrom(toks, index, end, relative);
      assert CurvesFrom(toks, q, current, relative) == Emitted([CurveTo(cp1, cp2, end)] + rest.out, rest.current, rest.pos);
      out := out + [CurveTo(cp1, cp2, end)];
      current := end;
    }
  }

  /** The `switch` on the command in force, run against the scanner from position `p`. */
  method RunCommand(toks: seq<Token>, st: Scan, p: nat) returns (o: Outcome)
    requires st.command.Some? && p <= |toks|
    ensures o == Execute(toks, st, p)
  {
    var cmd := st.command.value;
    var relative := cmd == 'm' || cmd == 'l' || cmd == 'c';
    var index := p;
    if cmd == 'm' || cmd == 'M' {
      o := Outcome(st.(pos := index), []);
      if IsNumberAt(toks, index) {
        var x := toks[index].v;
        index := index + 1;
        o := Outcome(st.(pos := index), []);
        if IsNumberAt(toks, index) {
          var y := toks[index].v;
          index := index + 1;
          var point := Resolve(relative, st.current, x, y);
          o := Outcome(Scan(index, point, point, Some(if cmd == 'm' then 'l' else 'L')), [MoveTo(point)]);
        }
      }
    } else if cmd == 'c' || cmd == 'C' {
      var out, current, next := ReadCurves(toks, index, st.current, relative);
      o := Outcome(Scan(next, current, st.start, st.command), out);
    } else if cmd == 'l' || cmd == 'L' {
      var out, current, next := ReadLines(toks, index, st.current, relative);
      o := Outcome(Scan(next, current, st.start, st.command), out);
    } else if cmd == 'z' || cmd == 'Z' {
      o := Outcome(Scan(index, st.start, st.start, st.command), [Close]);
    } else {
      o := Outcome(st.(pos := index), []);
    }
  }

  /**
   * A closepath or an unrecognised letter in front of a number: the round
   * leaves the scanner where it was with the same command in force, so on
   * such input the source's loop repeats the same round for ever
   * (appending a closepath each time after `z`/`Z`).
   */
  lemma StallAfterInertCommand(toks: seq<Token>, st: Scan)
    requires st.pos < |toks| && toks[st.pos].Number?
    requires st.command.Some? && Inert(st.command.value)
    ensures Step(toks, st).next.pos == st.pos && Step(toks, st).next.command == st.command
    ensures Step(toks, Step(toks, st).next).next == Step(toks, st).next
    ensures Step(toks, st).out == if st.command.value == 'z' || st.command.value == 'Z' then [Close] else []
  {
  }

  /**
   * The lineto loop reads every number in the run that starts at `p` and
   * emits one line per complete pair, dropping a lone last number.
   */
  lemma {:induction false} LinesFromConsumes(toks: seq<Token>, p: nat, current: Point, relative: bool)
    requires p <= |toks|
    ensures LinesFrom(toks, p, current, relative).pos == p + LeadingNumbers(toks, p)
    ensures |LinesFrom(toks, p, current, relative).out| == LeadingNumbers(toks, p) / 2
    decreases |toks| - p
  {
    if IsNumberAt(toks, p) && IsNumberAt(toks, p + 1) {
      var point := Resolve(relative, current, toks[p].v, toks[p + 1].v);
      LinesFromConsumes(toks, p + 2, point, relative);
      LeadingNumbersShift(toks, p, 2);
    } else if IsNumberAt(toks, p) {
      LeadingNumbersShift(toks, p, 1);
    }
  }

  /** `e` is the line read from the two numbers at position `i`, resolved against `from`. */
  predicate LineRead(e: PathElement, toks: seq<Token>, i: nat, from: Point, relative: bool)
  {
    IsNumberAt(toks, i) && IsNumberAt(toks, i + 1) &&
    e == LineTo(Resolve(relative, from, toks[i].v, toks[i + 1].v))
  }

  /**
   * Each line of the lineto loop goes to the point read from its pair of
   * numbers, resolved against the previous point, and the loop leaves the
   * current point at the last line's end.
   */
  lemma {:induction false} LinesFromSpec(toks: seq<Token>, p: nat, current: Point, relative: bool)
    requires p <= |toks|
    ensures var r := LinesFrom(toks, p, current, relative);
      (forall k :: 0 <= k < |r.out| ==> r.out[k].LineTo?) &&
      r.current == (if |r.out| == 0 then current else r.out[|r.out| - 1].to) &&
      forall k :: 0 <= k < |r.out| ==>
        LineRead(r.out[k], toks, p + 2 * k, if k == 0 then current else r.out[k - 1].to, relative)
    decreases |toks| - p
  {
    var r := LinesFrom(toks, p, current, relative);
    if IsNumberAt(toks, p) && IsNumberAt(toks, p + 1) {
      var point := Resolve(relative, current, toks[p].v, toks[p + 1].v);
      var rest := LinesFrom(toks, p + 2, point, relative);
      LinesFromSpec(toks, p + 2, point, relative);
      assert r.out == [LineTo(point)] + rest.out;
      assert LineRead(r.out[0], toks, p, current, relative);
      forall k | 0 < k < |r.out|
        ensures LineRead(r.out[k], toks, p + 2 * k, r.out[k - 1].to, relative)
      {
        assert r.out[k] == rest.out[k - 1];
        assert p + 2 * k == (p + 2) + 2 * (k - 1);
      }
    }
  }

  /** `e` is the curve read from the six numbers at position `i`, resolved against `from`. */
  predicate CurveRead(e: PathElement, toks: seq<Token>, i: nat, from: Point, relative: bool)
  {
    SixNumbersAt(toks, i) &&
    e == CurveTo(Resolve(relative, from, toks[i].v, toks[i + 1].v),
                 Resolve(relative, from, toks[i + 2].v, toks[i + 3].v),
                 Resolve(relative, from, toks[i + 4].v, toks[i + 5].v))
  }

  /**
   * The curveto loop reads every number in the run that starts at `p` and
   * emits one curve per complete group of six, dropping an incomplete last group.
   */
  lemma {:induction false} CurvesFromConsumes(toks: seq<Token>, p: nat, current: Point, relative: bool)
    requires p <= |toks|
    ensures CurvesFrom(toks, p, current, relative).pos == p + LeadingNumbers(toks, p)
    ensures |CurvesFrom(toks, p, current, relative).out| == LeadingNumbers(toks, p) / 6
    decreases |toks| - p
  {
    if SixNumbersAt(toks, p) {
      var end := Resolve(relative, current, toks[p + 4].v, toks[p + 5].v);
      CurvesFromConsumes(toks, p + 6, end, relative);
      LeadingNumbersShift(toks, p, 6);
    } else {
      LeadingNumbersBelowSix(toks, p);
    }
  }

  /**
   * Each curve of the curveto loop is read from its group of six numbers
   * (two control points and an end point, all resolved against the
   * previous end point), and the loop leaves the current point at the
   * last curve's end.
   */
  lemma {:induction false} CurvesFromSpec(toks: seq<Token>, p: nat, current: Point, relative: bool)
    requires p <= |toks|
    ensures var r := CurvesFrom(toks, p, current, relative);
      (forall k :: 0 <= k < |r.out| ==> r.out[k].CurveTo?) &&
      r.current == (if |r.out| == 0 then current else r.out[|r.out| - 1].to) &&
      forall k :: 0 <= k < |r.out| ==>
        CurveRead(r.out[k], toks, p + 6 * k, if k == 0 then current else r.out[k - 1].to, relative)
    decreases |toks| - p
  {
    var r := CurvesFrom(toks, p, current, relative);
    if SixNumbersAt(toks, p) {
      var end := Resolve(relative, current, toks[p + 4].v, toks[p + 5].v);
      var rest := CurvesFrom(toks, p + 6, end, relative);
      CurvesFromSpec(toks, p + 6, end, relative);
      assert r.out == [r.out[0]] + rest.out;
      assert CurveRead(r.out[0], toks, p, current, relative);
      forall k | 0 < k < |r.out|
        ensures CurveRead(r.out[k], toks, p + 6 * k, r.out[k - 1].to, relative)
      {
        assert r.out[k] == rest.out[k - 1];
        assert p + 6 * k == (p + 6) + 6 * (k - 1);
      }
    }
  }

  /** `k` numbers in a row from `p` on: the run from `p` is `k` longer than the run from `p + k`. */
  lemma {:induction false} LeadingNumbersShift(toks: seq<Token>, p: nat, k: nat)
    requires p + k <= |toks|
    requires forall j :: p <= j < p + k ==> toks[j].Number?
    ensures LeadingNumbers(toks, p) == LeadingNumbers(toks, p + k) + k
    decreases k
  {
    if k > 0 {
      LeadingNumbersShift(toks, p + 1, k - 1);
    }
  }

  /** Without six numbers from `p` on, the run from `p` is shorter than six. */
  lemma LeadingNumbersBelowSix(toks: seq<Token>, p: nat)
    requires p <= |toks| && !SixNumbersAt(toks, p)
    ensures LeadingNumbers(toks, p) < 6
  {
  }

  /**
   * A moveto with two numbers sets both the current point and the start
   * of the subpath, and turns the command in force into a lineto of the
   * same case, so coordinate pairs after it are implicit linetos; with
   * fewer than two numbers it emits nothing and keeps the command.
   */
  lemma MoveToStartsSubpath(toks: seq<Token>, st: Scan)
    requires st.pos + 2 < |toks| && (toks[st.pos] == Letter('m') || toks[st.pos] == Letter('M'))
    requires IsNumberAt(toks, st.pos + 1) && IsNumberAt(toks, st.pos + 2)
    ensures var c := toks[st.pos].c; var relative := c == 'm';
      var point := Resolve(relative, st.current, toks[st.pos + 1].v, toks[st.pos + 2].v);
      var o := Step(toks, st);
      o.out == [MoveTo(point)] && o.next.current == point && o.next.start == point &&
      o.next.pos == st.pos + 3 && o.next.command == Some(if relative then 'l' else 'L') &&
      (o.next.pos < |toks| && toks[o.next.pos].Number? ==>
        Step(toks, o.next).out == LinesFrom(toks, o.next.pos, point, relative).out)
  {
  }

  /** A closepath emits one element and puts the current point back at the start of the subpath. */
  lemma CloseReturnsToStart(toks: seq<Token>, st: Scan)
    requires st.pos < |toks| && (toks[st.pos] == Letter('z') || toks[st.pos] == Letter('Z'))
    ensures Step(toks, st).out == [Close]
    ensures Step(toks, st).next == st.(pos := st.pos + 1, current := st.start, command := Some(toks[st.pos].c))
  {
  }

  /** A letter outside m, l, c and z in either case emits nothing and changes nothing but the command and the position. */
  lemma UnknownLetterEmitsNothing(toks: seq<Token>, st: Scan)
    requires st.pos < |toks| && toks[st.pos].Letter? && Inert(toks[st.pos].c)
    requires toks[st.pos].c != 'z' && toks[st.pos].c != 'Z'
    ensures Step(toks, st).out == []
    ensures Step(toks, st).next == st.(pos := st.pos + 1, command := Some(toks[st.pos].c))
  {
  }

  /** Numbers before the first letter are skipped without emitting anything. */
  lemma SkipsBeforeFirstCommand(toks: seq<Token>)
    requires WellFormed(toks)
    ensures Resumable(toks, Scan(NextLetter(toks, 0), Origin, Origin, None))
    ensures Parse(toks) == Run(toks, Scan(NextLetter(toks, 0), Origin, Origin, None))
  {
    if |toks| > 0 && toks[0].Number? {
      RunUnfold(toks, Initial);
    }
  }

  /**
   * One round of the outer loop against the scanner: a letter becomes the
   * command in force; numbers before any command are skipped up to the
   * next letter; otherwise the scanner stays in front of the number and
   * the command in force reads it.
   */
  method Round(toks: seq<Token>, st: Scan) returns (o: Outcome)
    requires st.pos < |toks|
    ensures o == Step(toks, st)
  {
    var index := st.pos;
    if toks[index].Letter? {
      o := RunCommand(toks, st.(command := Some(toks[index].c)), index + 1);
    } else if st.command.None? {
      while index < |toks| && toks[index].Number?
        invariant st.pos <= index <= |toks|
        invariant forall j :: st.pos <= j < index ==> toks[j].Number?
      {
        index := index + 1;
      }
      assert index == NextLetter(toks, st.pos);
      o := Outcome(st.(pos := index), []);
    } else {
      o := RunCommand(toks, st, index);
    }
  }

  /**
   * `CGPath.make(fromSVGPath:)` with the scanner's position held in
   * `index`: rounds of the outer loop until the input is used up.
   */
  method MakePath(toks: seq<Token>) returns (path: seq<PathElement>)
    requires WellFormed(toks)
    ensures path == Parse(toks)
  {
    path := [];
    var index := 0;
    var current := Origin;
    var startPoint := Origin;
    var currentCommand: Option<char> := None;
    while index < |toks|
      invariant Resumable(toks, Scan(index, current, startPoint, currentCommand))
      invariant path + Run(toks, Scan(index, current, startPoint, currentCommand)) == Parse(toks)
      decreases |toks| - index
    {
      var before := Scan(index, current, startPoint, currentCommand);
      RunUnfold(toks, before);
      var o := Round(toks, before);
      path := path + o.out;
      index, current, startPoint, currentCommand := o.next.pos, o.next.current, o.next.start, o.next.command;
    }
  }
}

/**
 * The ghost body's outline as drawn (`GhostBodyShape.path(in:)` in
 * GhostbusterQuest/GhostSpriteView.swift): the outline is drawn in a
 * 1024-unit square and scaled uniformly to fit the smaller side of the view.
 */
module SvgScale {

  import opened Common
  import opened SvgPath

  /** The outline's design size. */
  const DesignSize: real := 1024.0

  /** `min(rect.width, rect.height) / 1024`: the uniform scale that fits the design square in the view. */
  function ScaleFactor(width: real, height: real): (s: real)
    ensures s * DesignSize <= width && s * DesignSize <= height
    ensures s * DesignSize == width || s * DesignSize == height
  {
    (if width <= height then width else height) / DesignSize
  }

  function ScalePoint(pt: Point, s: real): Point
  {
    Point(pt.x * s, pt.y * s)
  }

  /** An element under `CGAffineTransform(scaleX: s, y: s)`. */
  function ScaleElement(e: PathElement, s: real): PathElement
  {
    match e
    case MoveTo(to) => MoveTo(ScalePoint(to, s))
    case LineTo(to) => LineTo(ScalePoint(to, s))
    case CurveTo(c1, c2, to) => CurveTo(ScalePoint(c1, s), ScalePoint(c2, s), ScalePoint(to, s))
    case Close => Close
  }

  /** `cgPath.copy(using: &transform)`: every point of the path scaled by `s`, element kinds and order kept. */
  function ScalePath(path: seq<PathElement>, s: real): (r: seq<PathElement>)
    ensures |r| == |path|
    ensures forall i :: 0 <= i < |path| ==> r[i] == ScaleElement(path[i], s)
  {
    seq(|path|, i requires 0 <= i < |path| => ScaleElement(path[i], s))
  }

  /** The outline drawn in a `width` by `height` view. */
  function BodyOutline(toks: seq<Token>, width: real, height: real): seq<PathElement>
    requires WellFormed(toks)
  {
    ScalePath(Parse(toks), ScaleFactor(width, height))
  }

  /** Path data with every number multiplied by `s`. */
  function ScaleTokens(toks: seq<Token>, s: real): (r: seq<Token>)
    ensures |r| == |toks|
    ensures forall i :: 0 <= i < |toks| ==> r[i].Letter? == toks[i].Letter?
    ensures forall i :: 0 <= i < |toks| && toks[i].Letter? ==> r[i] == toks[i]
    ensures forall i :: 0 <= i < |toks| && toks[i].Number? ==> r[i] == Number(toks[i].v * s)
  {
    seq(|toks|, i requires 0 <= i < |toks| => match toks[i] { case Letter(c) => Letter(c) case Number(v) => Number(v * s) })
  }

  function ScaleScan(st: Scan, s: real): Scan
  {
    st.(current := ScalePoint(st.current, s), start := ScalePoint(st.start, s))
  }

  lemma ResolveScales(relative: bool, current: Point, x: real, y: real, s: real)
    ensures Resolve(relative, ScalePoint(current, s), x * s, y * s) == ScalePoint(Resolve(relative, current, x, y), s)
  {
    if relative {
      assert current.x * s + x * s == (current.x + x) * s;
      assert current.y * s + y * s == (current.y + y) * s;
    }
  }

  lemma {:induction false} LeadingNumbersScale(toks: seq<Token>, p: nat, s: real)
    requires p <= |toks|
    ensures LeadingNumbers(ScaleTokens(toks, s), p) == LeadingNumbers(toks, p)
    decreases |toks| - p
  {
    if IsNumberAt(toks, p) {
      LeadingNumbersScale(toks, p + 1, s);
    }
  }

  lemma {:induction false} LinesFromScale(toks: seq<Token>, p: nat, current: Point, relative: bool, s: real)
    requires p <= |toks|
    ensures var a := LinesFrom(toks, p, current, relative);
      var b := LinesFrom(ScaleTokens(toks, s), p, ScalePoint(current, s), relative);
      b == Emitted(ScalePath(a.out, s), ScalePoint(a.current, s), a.pos)
    decreases |toks| - p
  {
    var stoks := ScaleTokens(toks, s);
    if IsNumberAt(toks, p) && IsNumberAt(toks, p + 1) {
      var point := Resolve(relative, current, toks[p].v, toks[p + 1].v);
      PairScale(toks, p, current, relative, s);
      LinesFromScale(toks, p + 2, point, relative, s);
      var rest := LinesFrom(toks, p + 2, point, relative);
      var spoint := Resolve(relative, ScalePoint(current, s), stoks[p].v, stoks[p + 1].v);
      assert spoint == ScalePoint(point, s);
      var srest := LinesFrom(stoks, p + 2, spoint, relative);
      assert LinesFrom(stoks, p, ScalePoint(current, s), relative) == Emitted([LineTo(spoint)] + srest.out, srest.current, srest.pos);
      assert ScalePath([LineTo(point)] + rest.out, s) == [LineTo(ScalePoint(point, s))] + ScalePath(rest.out, s);
    } else {
      assert IsNumberAt(stoks, p) == IsNumberAt(toks, p);
      assert !(IsNumberAt(stoks, p) && IsNumberAt(stoks, p + 1));
    }
  }

  /** The point read from a scaled pair of numbers is the scaled point. */
  lemma PairScale(toks: seq<Token>, i: nat, current: Point, relative: bool, s: real)
    requires IsNumberAt(toks, i) && IsNumberAt(toks, i + 1)
    ensures var stoks := ScaleTokens(toks, s);
      IsNumberAt(stoks, i) && IsNumberAt(stoks, i + 1) &&
      Resolve(relative, ScalePoint(current, s), stoks[i].v, stoks[i + 1].v) == ScalePoint(Resolve(relative, current, toks[i].v, toks[i + 1].v), s)
  {
    var stoks := ScaleTokens(toks, s);
    assert stoks[i].v == toks[i].v * s && stoks[i + 1].v == toks[i + 1].v * s;
    ResolveScales(relative, current, toks[i].v, toks[i + 1].v, s);
  }

  /** The three points of a curve read from scaled numbers are the scaled points. */
  lemma CurveGroupScale(toks: seq<Token>, p: nat, current: Point, relative: bool, s: real)
    requires SixNumbersAt(toks, p)
    ensures var stoks := ScaleTokens(toks, s); var scur := ScalePoint(current, s);
      SixNumbersAt(stoks, p) &&
      Resolve(relative, scur, stoks[p].v, stoks[p + 1].v) == ScalePoint(Resolve(relative, current, toks[p].v, toks[p + 1].v), s) &&
      Resolve(relative, scur, stoks[p + 2].v, stoks[p + 3].v) == ScalePoint(Resolve(relative, current, toks[p + 2].v, toks[p + 3].v), s) &&
      Resolve(relative, scur, stoks[p + 4].v, stoks[p + 5].v) == ScalePoint(Resolve(relative, current, toks[p + 4].v, toks[p + 5].v), s)
  {
    PairScale(toks, p, current, relative, s);
    PairScale(toks, p + 2, current, relative, s);
    PairScale(toks, p + 4, current, relative, s);
  }

  lemma {:induction false} CurvesFromScale(toks: seq<Token>, p: nat, current: Point, relative: bool, s: real)
    requires p <= |toks|
    ensures var a := CurvesFrom(toks, p, current, relative);
      var b := CurvesFrom(ScaleTokens(toks, s), p, ScalePoint(current, s), relative);
      b == Emitted(ScalePath(a.out, s), ScalePoint(a.current, s), a.pos)
    decreases |toks| - p
  {
    var stoks := ScaleTokens(toks, s);
    if SixNumbersAt(toks, p) {
      var end := Resolve(relative, current, toks[p + 4].v, toks[p + 5].v);
      var a := CurvesFrom(toks, p, current, relative);
      var rest := CurvesFrom(toks, p + 6, end, relative);
      CurveGroupScale(toks, p, current, relative, s);
      CurvesFromScale(toks, p + 6, end, relative, s);
      assert a.out == [a.out[0]] + rest.out;
      assert ScalePath(a.out, s) == [ScaleElement(a.out[0], s)] + ScalePath(rest.out, s);
    } else {
      CurvesStopScale(toks, p, current, relative, s);
    }
  }

  /** Where the curveto loop stops at once, it stops at once on the scaled numbers too, at the same position. */
  lemma CurvesStopScale(toks: seq<Token>, p: nat, current: Point, relative: bool, s: real)
    requires p <= |toks| && !SixNumbersAt(toks, p)
    ensures CurvesFrom(ScaleTokens(toks, s), p, ScalePoint(current, s), relative) == Emitted([], ScalePoint(current, s), p + LeadingNumbers(toks, p))
  {
    assert !SixNumbersAt(ScaleTokens(toks, s), p);
    LeadingNumbersScale(toks, p, s);
  }

  lemma ExecuteScale(toks: seq<Token>, st: Scan, p: nat, s: real)
    requires st.command.Some? && p <= |toks|
    ensures var a := Execute(toks, st, p);
      Execute(ScaleTokens(toks, s), ScaleScan(st, s), p) == Outcome(ScaleScan(a.next, s), ScalePath(a.out, s))
  {
    var stoks := ScaleTokens(toks, s);
    var cmd := st.command.value;
    var relative := cmd == 'm' || cmd == 'l' || cmd == 'c';
    if cmd == 'm' || cmd == 'M' {
      assert IsNumberAt(stoks, p) == IsNumberAt(toks, p) && IsNumberAt(stoks, p + 1) == IsNumberAt(toks, p + 1);
      if IsNumberAt(toks, p) && IsNumberAt(toks, p + 1) {
        assert stoks[p].v == toks[p].v * s && stoks[p + 1].v == toks[p + 1].v * s;
        ResolveScales(relative, st.current, toks[p].v, toks[p + 1].v, s);
      }
    } else if cmd == 'c' || cmd == 'C' {
      CurvesFromScale(toks, p, st.current, relative, s);
    } else if cmd == 'l' || cmd == 'L' {
      LinesFromScale(toks, p, st.current, relative, s);
    } else if cmd == 'z' || cmd == 'Z' {
      assert ScalePath([Close], s) == [Close];
    }
  }

  lemma StepScale(toks: seq<Token>, st: Scan, s: real)
    requires st.pos < |toks|
    ensures var a := Step(toks, st);
      Step(ScaleTokens(toks, s), ScaleScan(st, s)) == Outcome(ScaleScan(a.next, s), ScalePath(a.out, s))
  {
    var stoks := ScaleTokens(toks, s);
    var sst := ScaleScan(st, s);
    match toks[st.pos]
    case Letter(c) =>
      assert stoks[st.pos] == Letter(c);
      assert Step(toks, st) == Execute(toks, st.(command := Some(c)), st.pos + 1);
      assert Step(stoks, sst) == Execute(stoks, sst.(command := Some(c)), st.pos + 1);
      ExecuteScale(toks, st.(command := Some(c)), st.pos + 1, s);
      assert sst.(command := Some(c)) == ScaleScan(st.(command := Some(c)), s);
    case Number(_) =>
      assert stoks[st.pos].Number?;
      if st.command.None? {
        assert Step(toks, st) == Outcome(st.(pos := NextLetter(toks, st.pos)), []);
        assert Step(stoks, sst) == Outcome(sst.(pos := NextLetter(stoks, st.pos)), []);
        LeadingNumbersScale(toks, st.pos, s);
      } else {
        assert Step(toks, st) == Execute(toks, st, st.pos);
        assert Step(stoks, sst) == Execute(stoks, sst, st.pos);
        ExecuteScale(toks, st, st.pos, s);
      }
  }

  lemma ScalePathAppend(a: seq<PathElement>, b: seq<PathElement>, s: real)
    ensures ScalePath(a + b, s) == ScalePath(a, s) + ScalePath(b, s)
  {
  }

  lemma ScaleKeepsWellFormed(toks: seq<Token>, s: real)
    requires WellFormed(toks)
    ensures WellFormed(ScaleTokens(toks, s))
  {
  }

  lemma {:induction false} RunScale(toks: seq<Token>, st: Scan, s: real)
    requires WellFormed(toks) && Resumable(toks, st)
    ensures WellFormed(ScaleTokens(toks, s)) && Resumable(ScaleTokens(toks, s), ScaleScan(st, s))
    ensures Run(ScaleTokens(toks, s), ScaleScan(st, s)) == ScalePath(Run(toks, st), s)
    decreases |toks| - st.pos
  {
    var stoks := ScaleTokens(toks, s);
    var sst := ScaleScan(st, s);
    ScaleKeepsWellFormed(toks, s);
    assert Resumable(stoks, sst);
    if st.pos < |toks| {
      var o := Step(toks, st);
      RunUnfold(toks, st);
      RunUnfold(stoks, sst);
      StepScale(toks, st, s);
      RunScale(toks, o.next, s);
      ScalePathAppend(o.out, Run(toks, o.next), s);
    }
  }

  /**
   * Scaling the drawn path is the same as scaling the numbers of the path
   * data before parsing: the parser's relative coordinates are linear, so
   * the uniform fit-to-view scale can be applied to either.
   */
  lemma ParseCommutesWithScale(toks: seq<Token>, s: real)
    requires WellFormed(toks)
    ensures WellFormed(ScaleTokens(toks, s))
    ensures Parse(ScaleTokens(toks, s)) == ScalePath(Parse(toks), s)
  {
    RunScale(toks, Initial, s);
    assert ScaleScan(Initial, s) == Initial;
  }

  lemma PointScaleComposes(pt: Point, a: real, b: real)
    ensures ScalePoint(pt, 1.0) == pt
    ensures ScalePoint(ScalePoint(pt, a), b) == ScalePoint(pt, a * b)
  {
    assert pt.x * a * b == pt.x * (a * b) && pt.y * a * b == pt.y * (a * b);
  }

  lemma ElementScaleComposes(e: PathElement, a: real, b: real)
    ensures ScaleElement(e, 1.0) == e
    ensures ScaleElement(ScaleElement(e, a), b) == ScaleElement(e, a * b)
  {
    match e
    case MoveTo(to) => PointScaleComposes(to, a, b);
    case LineTo(to) => PointScaleComposes(to, a, b);
    case CurveTo(c1, c2, to) =>
      PointScaleComposes(c1, a, b);
      PointScaleComposes(c2, a, b);
      PointScaleComposes(to, a, b);
    case Close =>
  }

  /** Scaling by 1 leaves the path as it is, and two scalings compose into one by the product. */
  lemma ScalePathComposes(path: seq<PathElement>, a: real, b: real)
    ensures ScalePath(path, 1.0) == path
    ensures ScalePath(ScalePath(path, a), b) == ScalePath(path, a * b)
  {
    forall i | 0 <= i < |path|
      ensures ScalePath(path, 1.0)[i] == path[i]
      ensures ScalePath(ScalePath(path, a), b)[i] == ScalePath(path, a * b)[i]
    {
      ElementScaleComposes(path[i], a, b);
    }
  }
}
