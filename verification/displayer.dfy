/** The sequential parts of AndroidDisplayer: the line scan of
    `calcPaintWH`, which derives a comment's paint width and height from its
    text, the paint flags `drawDanmaku` selects, and `update`. Text widths
    come from an abstract `measure` standing for `Paint.measureText`. */
module Displayer {
  import opened Wrappers

  function Max(a: nat, b: nat): nat
  {
    if a >= b then a else b
  }

  /** The line-break mark `DANMAKU_BR_CHAR`. Its value is not part of this
      model; the loop of `calcPaintWH` steps over it with `endPos + 2`, so it
      is a pair of characters. */
  datatype Separator = Separator(first: char, second: char)

  function Chars(sep: Separator): string
  {
    [sep.first, sep.second]
  }

  /** The mark occurs in `text` at position `i`. */
  predicate OccursAt(text: string, sep: Separator, i: int)
  {
    0 <= i && i + 1 < |text| && text[i] == sep.first && text[i + 1] == sep.second
  }

  /** `text.indexOf(mark, from)`: the first occurrence at or after `from`,
      or -1. */
  function IndexOf(text: string, sep: Separator, from: nat): (r: int)
    ensures r == -1 || (from <= r && OccursAt(text, sep, r))
    decreases |text| - from
  {
    if from + 1 >= |text| then -1
    else if OccursAt(text, sep, from) then from
    else IndexOf(text, sep, from + 1)
  }

  /** `IndexOf` finds the first occurrence: none lies between `from` and the
      result, and -1 means there is none at or after `from`. */
  lemma {:induction false} IndexOfIsFirst(text: string, sep: Separator, from: nat)
    ensures var r := IndexOf(text, sep, from);
            && (r == -1 ==> forall i :: from <= i ==> !OccursAt(text, sep, i))
            && (r != -1 ==> forall i :: from <= i < r ==> !OccursAt(text, sep, i))
    decreases |text| - from
  {
    if from + 1 < |text| && !OccursAt(text, sep, from) {
      IndexOfIsFirst(text, sep, from + 1);
    }
  }

  /** The state the separator loop of `calcPaintWH` ends in: the widest
      segment seen, the number of separators found (each adds one to `t`) and
      the final `stPos`. */
  datatype Scan = Scan(width: nat, breaks: nat, stop: nat)

  /** The separator loop of `calcPaintWH` from `stPos` with running width
      `w`: each mark found counts one, the segment before it widens `w` when
      non-empty and of positive width, and the scan resumes two characters
      past the mark's start. */
  function ScanLines(text: string, sep: Separator, measure: string -> nat, stPos: nat, w: nat): (r: Scan)
    requires stPos <= |text|
    ensures w <= r.width
    ensures stPos <= r.stop <= |text|
    decreases |text| - stPos
  {
    var endPos := IndexOf(text, sep, stPos);
    if endPos == -1 then Scan(w, 0, stPos)
    else
      var segment := text[stPos..endPos];
      var tr := measure(segment);
      var w1 := if |segment| > 0 && tr > 0 && tr > w then tr else w;
      var r := ScanLines(text, sep, measure, endPos + 2, w1);
      Scan(r.width, r.breaks + 1, r.stop)
  }

  /** A comment's paint width and height. */
  datatype Size = Size(width: nat, height: nat)

  /** `calcPaintWH` as written: without a mark, the measured text and one
      text height; otherwise the separator loop, then the remainder after the
      last mark counts as one more line, and may widen the result, only when
      `stPos < length - 1`; the height is `(t + 1)` text heights. */
  function CalcPaintWH(text: string, sep: Separator, measure: string -> nat, textHeight: nat): (r: Size)
    ensures IndexOf(text, sep, 0) == -1 ==> r == Size(measure(text), textHeight)
    ensures IndexOf(text, sep, 0) != -1 ==> r.height >= 2 * textHeight
  {
    if IndexOf(text, sep, 0) == -1 then Size(measure(text), textHeight)
    else
      var s := ScanLines(text, sep, measure, 0, 0);
      var tail := s.stop < |text| - 1;
      var t := s.breaks + (if tail then 1 else 0);
      var w :=
        if tail && text[s.stop..] != Chars(sep) && |text[s.stop..]| > 0 then Max(measure(text[s.stop..]), s.width)
        else s.width;
      Size(w, (t + 1) * textHeight)
  }

  /** `calcPaintWH` with the remainder guard corrected to `stPos < length`:
      every non-empty remainder is a line and is measured. */
  function CalcPaintWHCorrected(text: string, sep: Separator, measure: string -> nat, textHeight: nat): (r: Size)
    ensures IndexOf(text, sep, 0) == -1 ==> r == Size(measure(text), textHeight)
  {
    if IndexOf(text, sep, 0) == -1 then Size(measure(text), textHeight)
    else
      var s := ScanLines(text, sep, measure, 0, 0);
      var tail := s.stop < |text|;
      var t := s.breaks + (if tail then 1 else 0);
      var w :=
        if tail && text[s.stop..] != Chars(sep) then Max(measure(text[s.stop..]), s.width)
        else s.width;
      Size(w, (t + 1) * textHeight)
  }

  /** The lines of `text` from position `from`: the pieces between
      successive marks, read left to right, the last one after the final
      mark. */
  function LinesFrom(text: string, sep: Separator, from: nat): (r: seq<string>)
    requires from <= |text|
    ensures |r| >= 1
    decreases |text| - from
  {
    var i := IndexOf(text, sep, from);
    if i == -1 then [text[from..]] else [text[from..i]] + LinesFrom(text, sep, i + 2)
  }

  function Lines(text: string, sep: Separator): (r: seq<string>)
    ensures |r| >= 1
  {
    LinesFrom(text, sep, 0)
  }

  /** The width a line contributes: its measure when non-empty, else 0. */
  function LineWidth(line: string, measure: string -> nat): nat
  {
    if |line| > 0 then measure(line) else 0
  }

  /** The widest of some lines, 0 for none. */
  function Widest(lines: seq<string>, measure: string -> nat): (r: nat)
    ensures forall i :: 0 <= i < |lines| ==> LineWidth(lines[i], measure) <= r
    ensures |lines| == 0 ==> r == 0
  {
    if lines == [] then 0 else Max(LineWidth(lines[0], measure), Widest(lines[1..], measure))
  }

  lemma {:induction false} WidestAppend(a: seq<string>, b: seq<string>, measure: string -> nat)
    ensures Widest(a + b, measure) == Max(Widest(a, measure), Widest(b, measure))
    decreases |a|
  {
    if a == [] {
      assert a + b == b;
    } else {
      assert (a + b)[1..] == a[1..] + b;
      WidestAppend(a[1..], b, measure);
    }
  }

  /** The lines joined with the mark between them give back the text. */
  function Join(lines: seq<string>, sep: Separator): (r: string)
    requires |lines| >= 1
  {
    if |lines| == 1 then lines[0] else lines[0] + Chars(sep) + Join(lines[1..], sep)
  }

  lemma {:induction false} JoinLinesFrom(text: string, sep: Separator, from: nat)
    requires from <= |text|
    ensures Join(LinesFrom(text, sep, from), sep) == text[from..]
    decreases |text| - from
  {
    var i := IndexOf(text, sep, from);
    if i == -1 {
      assert LinesFrom(text, sep, from) == [text[from..]];
    } else {
      JoinLinesFrom(text, sep, i + 2);
      var rest := LinesFrom(text, sep, i + 2);
      assert LinesFrom(text, sep, from) == [text[from..i]] + rest;
      assert text[from..] == text[from..i] + Chars(sep) + text[i + 2..];
    }
  }

  /** No line holds a mark. */
  lemma {:induction false} LinesHoldNoMark(text: string, sep: Separator, from: nat)
    requires from <= |text|
    ensures forall k :: 0 <= k < |LinesFrom(text, sep, from)| ==>
              IndexOf(LinesFrom(text, sep, from)[k], sep, 0) == -1
    decreases |text| - from
  {
    var i := IndexOf(text, sep, from);
    IndexOfIsFirst(text, sep, from);
    if i == -1 {
      NoMarkInside(text, sep, from, |text|);
      assert text[from..|text|] == text[from..];
    } else {
      LinesHoldNoMark(text, sep, i + 2);
      NoMarkInside(text, sep, from, i);
      assert LinesFrom(text, sep, from)[1..] == LinesFrom(text, sep, i + 2);
    }
  }

  /** The last line is never the bare mark: a mark there would have been
      found. */
  lemma {:induction false} LastLineIsNotMark(text: string, sep: Separator, from: nat)
    requires from <= |text|
    ensures var lines := LinesFrom(text, sep, from);
            lines[|lines| - 1] != Chars(sep)
    decreases |text| - from
  {
    var i := IndexOf(text, sep, from);
    IndexOfIsFirst(text, sep, from);
    if i == -1 {
      if text[from..] == Chars(sep) {
        assert OccursAt(text, sep, from);
      }
    } else {
      LastLineIsNotMark(text, sep, i + 2);
      var rest := LinesFrom(text, sep, i + 2);
      assert LinesFrom(text, sep, from) == [text[from..i]] + rest;
    }
  }

  /** A piece of `text` with no mark starting inside it, other than in its
      last position, holds no mark. */
  lemma {:induction false} NoMarkInside(text: string, sep: Separator, from: nat, to: nat)
    requires from <= to <= |text|
    requires forall i :: from <= i < to ==> !OccursAt(text, sep, i)
    ensures IndexOf(text[from..to], sep, 0) == -1
  {
    var piece := text[from..to];
    var r := IndexOf(piece, sep, 0);
    if r != -1 {
      assert OccursAt(text, sep, from + r);
    }
  }

  /** The separator loop walks exactly the lines from `stPos`: it counts a
      separator for every line but the last, widens by every line but the
      last, and stops where the last line starts. */
  lemma ScanWalksLines(text: string, sep: Separator, measure: string -> nat, stPos: nat, w: nat)
    requires stPos <= |text|
    ensures var lines := LinesFrom(text, sep, stPos);
            var n := |lines|;
            var r := ScanLines(text, sep, measure, stPos, w);
            && r.width == Max(w, Widest(lines[..n - 1], measure))
            && r.breaks == n - 1
            && text[r.stop..] == lines[n - 1]
  {
    ScanCountsBreaks(text, sep, measure, stPos, w);
    ScanStopsAtLastLine(text, sep, measure, stPos, w);
    ScanWidthIsWidest(text, sep, measure, stPos, w);
  }

  /** Dropping the last element of a list with a head in front. */
  lemma InitOfCons<T>(x: T, s: seq<T>)
    requires |s| >= 1
    ensures ([x] + s)[..|s|] == [x] + s[..|s| - 1]
  {
  }

  lemma {:induction false} ScanCountsBreaks(text: string, sep: Separator, measure: string -> nat, stPos: nat, w: nat)
    requires stPos <= |text|
    ensures ScanLines(text, sep, measure, stPos, w).breaks == |LinesFrom(text, sep, stPos)| - 1
    decreases |text| - stPos
  {
    var endPos := IndexOf(text, sep, stPos);
    if endPos != -1 {
      var segment := text[stPos..endPos];
      var tr := measure(segment);
      var w1 := if |segment| > 0 && tr > 0 && tr > w then tr else w;
      ScanCountsBreaks(text, sep, measure, endPos + 2, w1);
    }
  }

  /** Where the last line from `from` starts. */
  function LastStart(text: string, sep: Separator, from: nat): (r: nat)
    requires from <= |text|
    ensures from <= r <= |text|
    decreases |text| - from
  {
    var i := IndexOf(text, sep, from);
    if i == -1 then from else LastStart(text, sep, i + 2)
  }

  /** The widest line before the last one, read off positions. */
  function WidestBefore(text: string, sep: Separator, measure: string -> nat, from: nat): nat
    requires from <= |text|
    decreases |text| - from
  {
    var i := IndexOf(text, sep, from);
    if i == -1 then 0 else Max(LineWidth(text[from..i], measure), WidestBefore(text, sep, measure, i + 2))
  }

  lemma {:induction false} ScanStopsAtLastStart(text: string, sep: Separator, measure: string -> nat, stPos: nat, w: nat)
    requires stPos <= |text|
    ensures ScanLines(text, sep, measure, stPos, w).stop == LastStart(text, sep, stPos)
    decreases |text| - stPos
  {
    var endPos := IndexOf(text, sep, stPos);
    if endPos != -1 {
      var segment := text[stPos..endPos];
      var tr := measure(segment);
      var w1 := if |segment| > 0 && tr > 0 && tr > w then tr else w;
      ScanStopsAtLastStart(text, sep, measure, endPos + 2, w1);
    }
  }

  lemma {:induction false} LastLineAtLastStart(text: string, sep: Separator, from: nat)
    requires from <= |text|
    ensures var lines := LinesFrom(text, sep, from);
            lines[|lines| - 1] == text[LastStart(text, sep, from)..]
    decreases |text| - from
  {
    var i := IndexOf(text, sep, from);
    if i != -1 {
      LastLineAtLastStart(text, sep, i + 2);
      var rest := LinesFrom(text, sep, i + 2);
      assert LinesFrom(text, sep, from) == [text[from..i]] + rest;
    }
  }

  lemma ScanStopsAtLastLine(text: string, sep: Separator, measure: string -> nat, stPos: nat, w: nat)
    requires stPos <= |text|
    ensures var lines := LinesFrom(text, sep, stPos);
            text[ScanLines(text, sep, measure, stPos, w).stop..] == lines[|lines| - 1]
  {
    ScanStopsAtLastStart(text, sep, measure, stPos, w);
    LastLineAtLastStart(text, sep, stPos);
  }

  lemma {:induction false} ScanWidthIsWidestBefore(text: string, sep: Separator, measure: string -> nat, stPos: nat, w: nat)
    requires stPos <= |text|
    ensures ScanLines(text, sep, measure, stPos, w).width == Max(w, WidestBefore(text, sep, measure, stPos))
    decreases |text| - stPos
  {
    var endPos := IndexOf(text, sep, stPos);
    if endPos != -1 {
      var segment := text[stPos..endPos];
      var tr := measure(segment);
      var w1 := if |segment| > 0 && tr > 0 && tr > w then tr else w;
      ScanWidthIsWidestBefore(text, sep, measure, endPos + 2, w1);
    }
  }

  lemma {:induction false} WidestBeforeIsWidestFront(text: string, sep: Separator, measure: string -> nat, from: nat)
    requires from <= |text|
    ensures var lines := LinesFrom(text, sep, from);
            WidestBefore(text, sep, measure, from) == Widest(lines[..|lines| - 1], measure)
    decreases |text| - from
  {
    var lines := LinesFrom(text, sep, from);
    var i := IndexOf(text, sep, from);
    if i != -1 {
      var segment := text[from..i];
      var rest := LinesFrom(text, sep, i + 2);
      WidestBeforeIsWidestFront(text, sep, measure, i + 2);
      assert lines == [segment] + rest;
      InitOfCons(segment, rest);
      WidestAppend([segment], rest[..|rest| - 1], measure);
      assert Widest([segment], measure) == LineWidth(segment, measure);
    } else {
      assert lines[..0] == [];
    }
  }

  lemma ScanWidthIsWidest(text: string, sep: Separator, measure: string -> nat, stPos: nat, w: nat)
    requires stPos <= |text|
    ensures var lines := LinesFrom(text, sep, stPos);
            ScanLines(text, sep, measure, stPos, w).width == Max(w, Widest(lines[..|lines| - 1], measure))
  {
    ScanWidthIsWidestBefore(text, sep, measure, stPos, w);
    WidestBeforeIsWidestFront(text, sep, measure, stPos);
  }

  /** `calcPaintWH` in terms of the text's lines: one line gives the
      measured text and one text height; otherwise the width is the widest
      line before the last, widened by the last line only when it has at
      least two characters, and the height counts one text height per line
      plus one more when that last line has two or more characters. */
  lemma CalcPaintWHByLines(text: string, sep: Separator, measure: string -> nat, textHeight: nat)
    ensures var lines := Lines(text, sep);
            var n := |lines|;
            var last := lines[n - 1];
            CalcPaintWH(text, sep, measure, textHeight) ==
              if n == 1 then Size(measure(text), textHeight)
              else if |last| >= 2 then
                Size(Max(Widest(lines[..n - 1], measure), measure(last)), (n + 1) * textHeight)
              else Size(Widest(lines[..n - 1], measure), n * textHeight)
  {
    ScanWalksLines(text, sep, measure, 0, 0);
    LastLineIsNotMark(text, sep, 0);
    if IndexOf(text, sep, 0) == -1 {
      assert text[0..] == text;
    }
  }

  /** The corrected scan measures every line: with at least one mark, the
      width is the widest line, and every line adds a text height, the last
      one only when it is not empty, on top of the one the formula always
      adds. */
  lemma CorrectedCountsEveryLine(text: string, sep: Separator, measure: string -> nat, textHeight: nat)
    ensures var lines := Lines(text, sep);
            |lines| > 1 ==> CalcPaintWHCorrected(text, sep, measure, textHeight) ==
                              Size(Widest(lines, measure), (|lines| + if |lines[|lines| - 1]| > 0 then 1 else 0) * textHeight)
  {
    var lines := Lines(text, sep);
    var n := |lines|;
    ScanWalksLines(text, sep, measure, 0, 0);
    LastLineIsNotMark(text, sep, 0);
    SplitLast(lines);
    WidestAppend(lines[..n - 1], [lines[n - 1]], measure);
  }

  /** A non-empty list is its front followed by its last element. */
  lemma SplitLast<T>(s: seq<T>)
    requires |s| >= 1
    ensures s == s[..|s| - 1] + [s[|s| - 1]]
  {
  }

  /** As written, a one-character last line is neither measured nor counted:
      with the mark "/n", for "a/nW" the width is that of "a" although "W" is
      wider, and the height is that of two lines. */
  lemma OneCharacterLastLineIgnored()
    ensures var measure := (s: string) => if s == "W" then 30 else 10;
            var sep := Separator('/', 'n');
            && Lines("a/nW", sep) == ["a", "W"]
            && CalcPaintWH("a/nW", sep, measure, 20) == Size(10, 40)
            && Widest(Lines("a/nW", sep), measure) == 30
            && CalcPaintWHCorrected("a/nW", sep, measure, 20) == Size(30, 60)
  {
    var measure := (s: string) => if s == "W" then 30 else 10;
    var sep := Separator('/', 'n');
    var text := "a/nW";
    assert IndexOf(text, sep, 0) == 1;
    assert IndexOf(text, sep, 3) == -1;
    assert text[3..] == "W";
    assert LinesFrom(text, sep, 3) == ["W"];
    assert text[0..1] == "a";
    assert LinesFrom(text, sep, 0) == [text[0..1]] + LinesFrom(text, sep, 3);
    assert Lines(text, sep) == ["a", "W"];
    CalcPaintWHByLines(text, sep, measure, 20);
    CorrectedCountsEveryLine(text, sep, measure, 20);
  }

  /** HAS_STROKE, HAS_SHADOW and ANTI_ALIAS. */
  datatype PaintFlags = PaintFlags(hasStroke: bool, hasShadow: bool, antiAlias: bool)

  /** The flags `drawDanmaku` sets before drawing: never a stroke; shadow and
      anti-aliasing together, only for a non-quick draw. */
  function DrawFlags(quick: bool): (f: PaintFlags)
    ensures !f.hasStroke
    ensures f.hasShadow == !quick && f.antiAlias == !quick
  {
    if quick then PaintFlags(false, false, false) else PaintFlags(false, true, true)
  }

  /** The text style a comment gives its paint. */
  datatype TextStyle = TextStyle(textSize: int, textColor: int, shadowColor: int)

  /** One Android paint, as far as `getPaint` touches it; `shadow` is the
      shadow layer's colour, if there is one. */
  datatype Paint = Paint(textSize: int, color: int, antiAlias: bool, shadow: Option<int>)

  /** The displayer's two shared paints, PAINT and STROKE. */
  datatype Paints = Paints(text: Paint, stroke: Paint)

  /** `getPaint`: restyle the shared text paint for a comment; the stroke
      paint takes the comment's size and shadow colour only while strokes
      are on, and otherwise keeps whatever it last had. */
  function GetPaint(p: Paints, f: PaintFlags, style: TextStyle): (r: Paints)
    ensures r.text.textSize == style.textSize && r.text.color == style.textColor
    ensures r.text.antiAlias == f.antiAlias
    ensures r.text.shadow.Some? <==> f.hasShadow
    ensures r.text.shadow.Some? ==> r.text.shadow.value == style.shadowColor
    ensures f.hasStroke ==> r.stroke.textSize == style.textSize && r.stroke.color == style.shadowColor
    ensures !f.hasStroke ==> r.stroke == p.stroke
    ensures r.stroke.antiAlias == p.stroke.antiAlias && r.stroke.shadow == p.stroke.shadow
  {
    var shadow := if f.hasShadow then Some(style.shadowColor) else None;
    Paints(Paint(style.textSize, style.textColor, f.antiAlias, shadow),
           if f.hasStroke then p.stroke.(textSize := style.textSize, color := style.shadowColor) else p.stroke)
  }

  /** The text paint `getPaint` returns depends only on the flags and the
      comment, never on what the shared paint held before, so styling twice
      is styling once. */
  lemma GetPaintForgetsPrevious(p: Paints, q: Paints, f: PaintFlags, style: TextStyle)
    ensures GetPaint(p, f, style).text == GetPaint(q, f, style).text
    ensures GetPaint(GetPaint(p, f, style), f, style) == GetPaint(p, f, style)
  {
  }

  /** The paint `drawDanmaku` draws with: a quick draw is plain, a full draw
      is anti-aliased with the comment's shadow colour, and the stroke paint
      is left as it was. */
  lemma DrawDanmakuPaint(p: Paints, quick: bool, style: TextStyle)
    ensures var r := GetPaint(p, DrawFlags(quick), style);
            && r.text == Paint(style.textSize, style.textColor, !quick, if quick then None else Some(style.shadowColor))
            && r.stroke == p.stroke
  {
  }

  /** A canvas's size. */
  datatype Canvas = Canvas(width: int, height: int)

  /** The displayer's canvas and the width and height it reports. */
  datatype DisplayerState = DisplayerState(canvas: Option<Canvas>, width: int, height: int)

  /** `update(c)`: keep the canvas; take width and height from it unless it
      is null. */
  function Update(d: DisplayerState, c: Option<Canvas>): (r: DisplayerState)
    ensures r.canvas == c
    ensures c.Some? ==> r.width == c.value.width && r.height == c.value.height
    ensures c.None? ==> r.width == d.width && r.height == d.height
  {
    match c
    case Some(canvas) => DisplayerState(c, canvas.width, canvas.height)
    case None => d.(canvas := None)
  }

  /** After a null canvas the displayer still reports the size of the last
      non-null canvas. */
  lemma NullCanvasKeepsLastSize(d: DisplayerState, c: Canvas)
    ensures var r := Update(Update(d, Some(c)), None);
            r.canvas.None? && r.width == c.width && r.height == c.height
  {
  }
}
