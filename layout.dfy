/**
 * The speech-bubble re-typesetting loop of the `/api/translate` handler in
 * server/index.js: every `{page_number, text, box_2d}` item becomes one white
 * patch rectangle followed by one centred text run per wrapped line.
 *
 * Drawing is modelled as a list of instructions; page sizes and the font
 * metric are inputs.
 */
module Layout {
  import opened Common
  import opened Tokens
  import opened Wrap

  /** `box_2d = [ymin, xmin, ymax, xmax]`, normalised to 0..1000, origin at the top left. */
  datatype Box = Box(ymin: real, xmin: real, ymax: real, xmax: real)

  /** One entry of the translation list; every field may be missing. */
  datatype Item = Item(pageNumber: Option<int>, text: Option<string>, box: Option<Box>)

  /** `page.getSize()`, in the page's own units, origin at the bottom left. */
  datatype PageSize = PageSize(width: real, height: real)

  /** A drawing call on the page with index `page`. */
  datatype Instr =
    | Rect(page: nat, x: real, y: real, width: real, height: real)
    | Text(page: nat, line: string, x: real, y: real, size: real)

  /** `pages[pageIndex]` is undefined, so `getSize()` throws and the request fails. */
  datatype Error = PageMissing(pageIndex: int)

  const FontSize: real := 10.0
  const Padding: real := 10.0
  /** `lineHeight = fontSize * 1.4` with the fixed font size 10. */
  const LineHeight: real := 14.0
  const MinBoxWidth: real := 110.0
  /** `newBoxY` lies this far below the box's bottom edge; the patch's top is `newBoxY + fontSize`, 5 above that edge. */
  const Drop: real := 5.0

  // ---------------------------------------------------------------------
  // Which items are drawn
  // ---------------------------------------------------------------------

  datatype SkipReason = NoBox | NoText | NoPageNumber | PageOutOfRange

  /** What the loop does with one item. */
  datatype Verdict = Draw(pageIndex: nat) | Skip(reason: SkipReason) | Throw(badIndex: int)

  /** JavaScript truthiness of `page_number`: missing and 0 are false. */
  predicate PageNumberTruthy(n: Option<int>)
  {
    n.Some? && n.value != 0
  }

  /** The two `continue` guards of the loop and the failing page lookup. */
  function Classify(item: Item, pageCount: nat): (v: Verdict)
    ensures v.Skip? <==>
      item.box.None? || !Truthy(item.text) || !PageNumberTruthy(item.pageNumber) || item.pageNumber.value - 1 >= pageCount
    ensures v.Draw? <==>
      item.box.Some? && Truthy(item.text) && item.pageNumber.Some? && 1 <= item.pageNumber.value <= pageCount
    ensures v.Draw? ==> v.pageIndex == item.pageNumber.value - 1 && v.pageIndex < pageCount
    ensures v.Throw? ==> v.badIndex < 0 && v.badIndex == item.pageNumber.value - 1
  {
    if item.box.None? then Skip(NoBox)
    else if !Truthy(item.text) then Skip(NoText)
    else if !PageNumberTruthy(item.pageNumber) then Skip(NoPageNumber)
    else if item.pageNumber.value - 1 >= pageCount then Skip(PageOutOfRange)
    else if item.pageNumber.value - 1 < 0 then Throw(item.pageNumber.value - 1)
    else Draw(item.pageNumber.value - 1)
  }

  // ---------------------------------------------------------------------
  // Geometry of one patch
  // ---------------------------------------------------------------------

  function Max(a: real, b: real): (r: real)
    ensures r >= a && r >= b && (r == a || r == b)
  {
    if a >= b then a else b
  }

  /**
   * A box mapped onto its page: `originalBoxX` (left edge), `originalBoxY`
   * (bottom edge, in the page's y-up space) and `originalBoxWidth`.
   */
  datatype Frame = Frame(x: real, bottom: real, width: real)

  /** Lines 125-127: the normalised, y-down box scaled to a page of the given size. */
  function MapBox(b: Box, p: PageSize): Frame
  {
    Frame(b.xmin / 1000.0 * p.width, p.height - b.ymax / 1000.0 * p.height, (b.xmax - b.xmin) / 1000.0 * p.width)
  }

  /** `newBoxWidth`: the width of the mapped box, never below the minimum. */
  function PatchWidth(boxWidth: real): real
  {
    Max(boxWidth, MinBoxWidth)
  }

  /** The lines of `text` wrapped to the patch width less the padding on both sides. */
  function PatchLines(m: Measure, boxWidth: real, text: string): seq<string>
  {
    WrapLines(m, FontSize, PatchWidth(boxWidth) - Padding * 2.0, Some(text))
  }

  /** `newBoxHeight`: one line height (14) per line plus the padding above and below. */
  function PatchHeight(lineCount: nat): real
  {
    lineCount as real * LineHeight + Padding * 2.0
  }

  /**
   * The text runs of `lines` on page `page`, each centred in a patch whose left
   * edge is `x` and whose width is `w`, the first with baseline `y` and each
   * next one a line height lower.
   */
  function TextRuns(m: Measure, page: nat, lines: seq<string>, x: real, w: real, y: real): seq<Instr>
    decreases |lines|
  {
    if lines == [] then []
    else
      var run := Text(page, lines[0], x + (w - m(lines[0], FontSize)) / 2.0, y, FontSize);
      [run] + TextRuns(m, page, lines[1..], x, w, y - LineHeight)
  }

  /**
   * The patch whose left edge is `x`, whose box has its bottom edge at
   * `bottom`, and whose width is `w`: the rectangle, then the `lines`.
   */
  function PatchAt(m: Measure, page: nat, x: real, bottom: real, w: real, lines: seq<string>): seq<Instr>
  {
    var h := PatchHeight(|lines|);
    var top := bottom - Drop;
    [Rect(page, x, top - h + FontSize, w, h)] + TextRuns(m, page, lines, x, w, top - Padding)
  }

  /** The instructions for an accepted item with mapped box `f` and wrapped `lines`: its patch, then its lines. */
  function Patch(m: Measure, page: nat, f: Frame, lines: seq<string>): seq<Instr>
  {
    PatchAt(m, page, f.x, f.bottom, PatchWidth(f.width), lines)
  }

  /** What one item contributes: nothing, its patch, or the exception that ends the request. */
  function ItemInstructions(m: Measure, pages: seq<PageSize>, item: Item): Result<seq<Instr>, Error>
  {
    match Classify(item, |pages|)
    case Skip(_) => Ok([])
    case Throw(i) => Err(PageMissing(i))
    case Draw(i) =>
      var f := MapBox(item.box.value, pages[i]);
      Ok(Patch(m, i, f, PatchLines(m, f.width, item.text.value)))
  }

  /** The instructions of all items in list order; the first failing item fails the whole list. */
  function Instructions(m: Measure, pages: seq<PageSize>, items: seq<Item>): Result<seq<Instr>, Error>
    decreases |items|
  {
    if items == [] then Ok([])
    else
      match Instructions(m, pages, items[..|items| - 1])
      case Err(e) => Err(e)
      case Ok(before) =>
        match ItemInstructions(m, pages, items[|items| - 1])
        case Err(e) => Err(e)
        case Ok(mine) => Ok(before + mine)
  }

  /** The k-th text run has baseline `y` lowered by k line heights, and is centred. */
  lemma {:induction false} TextRunsAt(m: Measure, page: nat, lines: seq<string>, x: real, w: real, y: real)
    ensures |TextRuns(m, page, lines, x, w, y)| == |lines|
    ensures forall k :: 0 <= k < |lines| ==>
      TextRuns(m, page, lines, x, w, y)[k]
        == Text(page, lines[k], x + (w - m(lines[k], FontSize)) / 2.0, y - k as real * 14.0, 10.0)
    decreases |lines|
  {
    if lines != [] {
      var rest := TextRuns(m, page, lines[1..], x, w, y - LineHeight);
      TextRunsAt(m, page, lines[1..], x, w, y - LineHeight);
      forall k | 1 <= k < |lines|
        ensures TextRuns(m, page, lines, x, w, y)[k]
          == Text(page, lines[k], x + (w - m(lines[k], FontSize)) / 2.0, y - k as real * 14.0, 10.0)
      {
        assert TextRuns(m, page, lines, x, w, y)[k] == rest[k - 1];
        assert lines[1..][k - 1] == lines[k];
        assert (y - 14.0) - (k - 1) as real * 14.0 == y - k as real * 14.0;
      }
    }
  }

  // ---------------------------------------------------------------------
  // The loop of the handler
  // ---------------------------------------------------------------------

  /**
   * Lines 122-167: maps the box to the page, wraps the text, then emits the
   * patch and its lines.
   */
  method DrawPatch(m: Measure, pageIndex: nat, page: PageSize, box: Box, text: string) returns (out: seq<Instr>)
    ensures out == Patch(m, pageIndex, MapBox(box, page), PatchLines(m, MapBox(box, page).width, text))
  {
    var originalBoxX := box.xmin / 1000.0 * page.width;
    var originalBoxY := page.height - box.ymax / 1000.0 * page.height;
    var originalBoxWidth := (box.xmax - box.xmin) / 1000.0 * page.width;
    assert Frame(originalBoxX, originalBoxY, originalBoxWidth) == MapBox(box, page);
    var newBoxWidth, textLines := FitText(m, originalBoxWidth, text);
    out := EmitPatch(m, pageIndex, originalBoxX, originalBoxY, newBoxWidth, textLines);
  }

  /**
   * Lines 136-167: sizes the patch to the lines, puts `newBoxY` 5 below the
   * box's bottom edge, draws the rectangle with its top at `newBoxY +
   * fontSize` (5 above that edge), and then draws the lines in it.
   */
  method EmitPatch(m: Measure, pageIndex: nat, originalBoxX: real, originalBoxY: real, newBoxWidth: real, textLines: seq<string>)
    returns (out: seq<Instr>)
    ensures out == PatchAt(m, pageIndex, originalBoxX, originalBoxY, newBoxWidth, textLines)
  {
    var contentHeight := |textLines| as real * LineHeight;
    var newBoxHeight := contentHeight + Padding * 2.0;
    var newBoxY := originalBoxY - Drop;
    var runs := DrawLines(m, pageIndex, textLines, originalBoxX, newBoxWidth, newBoxY - Padding);
    out := [Rect(pageIndex, originalBoxX, newBoxY - newBoxHeight + FontSize, newBoxWidth, newBoxHeight)] + runs;
  }

  /**
   * Lines 133-135: widens the patch to the minimum width and wraps the text
   * to that width less the padding on both sides.
   */
  method FitText(m: Measure, originalBoxWidth: real, text: string) returns (newBoxWidth: real, textLines: seq<string>)
    ensures newBoxWidth == PatchWidth(originalBoxWidth)
    ensures textLines == PatchLines(m, originalBoxWidth, text)
  {
    newBoxWidth := Max(originalBoxWidth, MinBoxWidth);
    textLines := WrapText(m, FontSize, newBoxWidth - Padding * 2.0, Some(text));
  }

  /**
   * Lines 155-167: draws each line centred on the patch at `currentTextY`,
   * then lowers `currentTextY` by the line height.
   */
  method DrawLines(m: Measure, pageIndex: nat, textLines: seq<string>, originalBoxX: real, newBoxWidth: real, firstY: real)
    returns (out: seq<Instr>)
    ensures out == TextRuns(m, pageIndex, textLines, originalBoxX, newBoxWidth, firstY)
  {
    out := [];
    var currentTextY := firstY;
    for j := 0 to |textLines|
      invariant |out| == j
      invariant currentTextY == firstY - j as real * 14.0
      invariant forall k :: 0 <= k < j ==>
        out[k] == Text(pageIndex, textLines[k], originalBoxX + (newBoxWidth - m(textLines[k], FontSize)) / 2.0,
                       firstY - k as real * 14.0, 10.0)
    {
      var line := textLines[j];
      var lineWidth := m(line, FontSize);
      var centeredX := originalBoxX + (newBoxWidth - lineWidth) / 2.0;
      out := out + [Text(pageIndex, line, centeredX, currentTextY, FontSize)];
      currentTextY := currentTextY - LineHeight;
    }
    TextRunsAt(m, pageIndex, textLines, originalBoxX, newBoxWidth, firstY);
  }

  /**
   * Lines 114-167: the loop over the translation list, with the two
   * `continue` guards; an item with a negative page number makes
   * `pages[pageIndex].getSize()` throw, which ends the request.
   */
  method Translate(m: Measure, pages: seq<PageSize>, translations: seq<Item>) returns (r: Result<seq<Instr>, Error>)
    ensures r == Instructions(m, pages, translations)
  {
    var out: seq<Instr> := [];
    for i := 0 to |translations|
      invariant Instructions(m, pages, translations[..i]) == Ok(out)
    {
      var item := translations[i];
      assert translations[..i + 1][..i] == translations[..i];
      assert translations[..i + 1][i] == item;
      if item.box.None? || !Truthy(item.text) || !PageNumberTruthy(item.pageNumber) {
        assert ItemInstructions(m, pages, item) == Ok([]);
        assert out + [] == out;
        continue;
      }
      var pageIndex := item.pageNumber.value - 1;
      if pageIndex >= |pages| {
        assert ItemInstructions(m, pages, item) == Ok([]);
        assert out + [] == out;
        continue;
      }
      if pageIndex < 0 {
        FailureSticks(m, pages, translations, i + 1);
        return Err(PageMissing(pageIndex));
      }
      var drawn := DrawPatch(m, pageIndex, pages[pageIndex], item.box.value, item.text.value);
      assert ItemInstructions(m, pages, item) == Ok(drawn);
      out := out + drawn;
    }
    assert translations[..|translations|] == translations;
    return Ok(out);
  }

  /** Once a prefix of the list fails, the whole list fails with the same error. */
  lemma {:induction false} FailureSticks(m: Measure, pages: seq<PageSize>, items: seq<Item>, n: nat)
    requires n <= |items| && Instructions(m, pages, items[..n]).Err?
    ensures Instructions(m, pages, items) == Instructions(m, pages, items[..n])
    decreases |items| - n
  {
    if n < |items| {
      assert items[..n + 1][..n] == items[..n];
      FailureSticks(m, pages, items, n + 1);
    } else {
      assert items[..n] == items;
    }
  }
}

module LayoutFacts {
  import opened Common
  import opened Tokens
  import opened Wrap
  import opened Layout

  /**
   * The rectangle of an accepted item comes first: at `originalBoxX`, as wide
   * as `originalBoxWidth` but at least 110, 20 + 14 per line high, its bottom
   * at originalBoxY - 5 - height + 10; one instruction per line follows it.
   */
  lemma PatchRect(m: Measure, page: nat, f: Frame, lines: seq<string>)
    ensures var out := Patch(m, page, f, lines);
      && |out| == 1 + |lines|
      && out[0].Rect? && out[0].page == page
      && out[0].x == f.x
      && out[0].width >= 110.0 && out[0].width >= f.width
      && (out[0].width == 110.0 || out[0].width == f.width)
      && out[0].height == 20.0 + 14.0 * |lines| as real
      && out[0].y == f.bottom - 5.0 - out[0].height + 10.0
  {
    TextRunsAt(m, page, lines, f.x, PatchWidth(f.width), f.bottom - Drop - Padding);
    PatchHeightIs(|lines|);
  }

  lemma PatchHeightIs(n: nat)
    ensures PatchHeight(n) == 20.0 + 14.0 * n as real
  {
  }

  /**
   * After the rectangle come the runs, one per line and in line order: the
   * k-th (from 0) at baseline originalBoxY - 5 - 10 - 14k, size 10, centred
   * on the rectangle.
   */
  lemma PatchRuns(m: Measure, page: nat, f: Frame, lines: seq<string>)
    ensures var out := Patch(m, page, f, lines);
      |out| == 1 + |lines| &&
      forall k :: 1 <= k < |out| ==>
        && out[k] == Text(page, lines[k - 1], out[k].x, f.bottom - 5.0 - 10.0 - 14.0 * (k - 1) as real, 10.0)
        && out[k].x + m(lines[k - 1], 10.0) / 2.0 == out[0].x + out[0].width / 2.0
  {
    var out := Patch(m, page, f, lines);
    var x, w, y := f.x, PatchWidth(f.width), f.bottom - Drop - Padding;
    var runs := TextRuns(m, page, lines, x, w, y);
    TextRunsAt(m, page, lines, x, w, y);
    assert out == [out[0]] + runs;
    forall k | 1 <= k < |out|
      ensures out[k] == Text(page, lines[k - 1], out[k].x, f.bottom - 5.0 - 10.0 - 14.0 * (k - 1) as real, 10.0)
      ensures out[k].x + m(lines[k - 1], 10.0) / 2.0 == out[0].x + out[0].width / 2.0
    {
      assert out[k] == runs[k - 1];
    }
  }

  /**
   * The patch's top edge lies 5 above the box's bottom edge, and every
   * baseline lies inside the patch: at least 14 above its bottom and at least
   * 20 below its top.
   */
  lemma BaselinesInsidePatch(m: Measure, page: nat, f: Frame, lines: seq<string>)
    ensures var out := Patch(m, page, f, lines);
      && out[0].Rect?
      && out[0].y + out[0].height == f.bottom + 5.0
      && forall k :: 1 <= k < |out| ==>
           out[k].Text? && out[0].y + 14.0 <= out[k].y <= out[0].y + out[0].height - 20.0
  {
    var out := Patch(m, page, f, lines);
    PatchRect(m, page, f, lines);
    PatchRuns(m, page, f, lines);
    forall k | 1 <= k < |out|
      ensures out[k].Text? && out[0].y + 14.0 <= out[k].y <= out[0].y + out[0].height - 20.0
    {
      assert (k - 1) as real <= (|out| - 2) as real;
    }
  }

  /**
   * The text of an accepted item is wrapped at size 10 to the patch width
   * less 20, so a run of two or more tokens lies inside the patch with more than the padding of 10 on both sides.
   */
  lemma LinesInsidePatch(m: Measure, page: nat, f: Frame, text: string)
    requires text != ""
    ensures var out := Patch(m, page, f, PatchLines(m, f.width, text));
      && out[0].Rect?
      && PatchLines(m, f.width, text) == WrapLines(m, 10.0, out[0].width - 20.0, Some(text))
      && forall k :: 1 <= k < |out| && out[k].Text? && |Split(out[k].line)| > 1 ==>
           out[0].x + 10.0 < out[k].x && out[k].x + m(out[k].line, 10.0) < out[0].x + out[0].width - 10.0
  {
    var lines := PatchLines(m, f.width, text);
    var out := Patch(m, page, f, lines);
    PatchRect(m, page, f, lines);
    PatchRuns(m, page, f, lines);
    WrapWidth(m, FontSize, PatchWidth(f.width) - Padding * 2.0, Some(text));
    forall k | 1 <= k < |out| && out[k].Text? && |Split(out[k].line)| > 1
      ensures out[0].x + 10.0 < out[k].x && out[k].x + m(out[k].line, 10.0) < out[0].x + out[0].width - 10.0
    {
      assert out[k].line == lines[k - 1];
    }
  }

  /**
   * Skip rule: an item contributes nothing exactly when it is skipped, and
   * fails the request exactly when its page number is negative.
   */
  lemma ItemOutcome(m: Measure, pages: seq<PageSize>, item: Item)
    ensures ItemInstructions(m, pages, item) == Ok([]) <==>
      item.box.None? || !Truthy(item.text) || !PageNumberTruthy(item.pageNumber) || item.pageNumber.value - 1 >= |pages|
    ensures ItemInstructions(m, pages, item).Err? <==>
      item.box.Some? && Truthy(item.text) && item.pageNumber.Some? && item.pageNumber.value < 0
  {
  }

  /** The request succeeds exactly when no item has a negative page number and its other fields truthy. */
  lemma {:induction false} InstructionsOk(m: Measure, pages: seq<PageSize>, items: seq<Item>)
    ensures Instructions(m, pages, items).Ok? <==>
      forall k :: 0 <= k < |items| ==> !Classify(items[k], |pages|).Throw?
    decreases |items|
  {
    if items != [] {
      var init := items[..|items| - 1];
      InstructionsOk(m, pages, init);
      assert forall k :: 0 <= k < |init| ==> init[k] == items[k];
    }
  }

  /** The number of patch rectangles in a list of instructions. */
  function RectCount(out: seq<Instr>): nat
  {
    if out == [] then 0 else RectCount(out[..|out| - 1]) + (if out[|out| - 1].Rect? then 1 else 0)
  }

  /** The number of items that are drawn. */
  function DrawnCount(items: seq<Item>, pageCount: nat): nat
  {
    if items == [] then 0
    else DrawnCount(items[..|items| - 1], pageCount) + (if Classify(items[|items| - 1], pageCount).Draw? then 1 else 0)
  }

  lemma {:induction false} RectCountConcat(a: seq<Instr>, b: seq<Instr>)
    ensures RectCount(a + b) == RectCount(a) + RectCount(b)
    decreases |b|
  {
    if b == [] {
      assert a + b == a;
    } else {
      var b' := b[..|b| - 1];
      assert (a + b)[..|a + b| - 1] == a + b';
      RectCountConcat(a, b');
    }
  }

  /** A patch holds exactly one rectangle. */
  lemma PatchRects(m: Measure, page: nat, f: Frame, lines: seq<string>)
    ensures RectCount(Patch(m, page, f, lines)) == 1
  {
    var out := Patch(m, page, f, lines);
    PatchRect(m, page, f, lines);
    PatchRuns(m, page, f, lines);
    RectCountConcat([out[0]], out[1..]);
    assert out == [out[0]] + out[1..];
    assert RectCount([out[0]]) == 1 by {
      assert [out[0]][..0] == [];
    }
    NoRectsInRuns(out[1..]);
  }

  lemma {:induction false} NoRectsInRuns(runs: seq<Instr>)
    requires forall k :: 0 <= k < |runs| ==> runs[k].Text?
    ensures RectCount(runs) == 0
    decreases |runs|
  {
    if runs != [] {
      NoRectsInRuns(runs[..|runs| - 1]);
    }
  }

  /** A successful request draws exactly one patch rectangle per accepted item. */
  lemma {:induction false} OnePatchPerDrawnItem(m: Measure, pages: seq<PageSize>, items: seq<Item>)
    requires Instructions(m, pages, items).Ok?
    ensures RectCount(Instructions(m, pages, items).value) == DrawnCount(items, |pages|)
    decreases |items|
  {
    if items != [] {
      var init := items[..|items| - 1];
      var item := items[|items| - 1];
      OnePatchPerDrawnItem(m, pages, init);
      var before := Instructions(m, pages, init).value;
      var mine := ItemInstructions(m, pages, item).value;
      RectCountConcat(before, mine);
      match Classify(item, |pages|)
      case Skip(_) =>
      case Throw(_) =>
      case Draw(i) =>
        var f := MapBox(item.box.value, pages[i]);
        PatchRects(m, i, f, PatchLines(m, f.width, item.text.value));
    }
  }

  /**
   * Mapping a normalised box (lines 125-127): the right edge lands at
   * xmax/1000 of the page width, the bottom edge at (1000 - ymax)/1000 of the
   * page height measured from the page's bottom, and the full box
   * (0, 0, 1000, 1000) maps to the whole page width with its bottom at 0.
   */
  lemma BoxMapping(b: Box, p: PageSize)
    ensures MapBox(b, p).x + MapBox(b, p).width == b.xmax / 1000.0 * p.width
    ensures MapBox(b, p).bottom == (1000.0 - b.ymax) / 1000.0 * p.height
    ensures b == Box(0.0, 0.0, 1000.0, 1000.0) ==> MapBox(b, p) == Frame(0.0, 0.0, p.width)
  {
  }

  /** A box inside the 0..1000 square maps inside the page. */
  lemma BoxOnPage(b: Box, p: PageSize)
    requires 0.0 <= b.xmin <= 1000.0 && 0.0 <= b.ymax <= 1000.0
    requires p.width >= 0.0 && p.height >= 0.0
    ensures 0.0 <= MapBox(b, p).x <= p.width
    ensures 0.0 <= MapBox(b, p).bottom <= p.height
  {
    ScaledWithin(b.xmin / 1000.0, p.width);
    ScaledWithin(b.ymax / 1000.0, p.height);
  }

  lemma ScaledWithin(t: real, size: real)
    requires 0.0 <= t <= 1.0 && size >= 0.0
    ensures 0.0 <= t * size <= size
  {
    assert size - t * size == (1.0 - t) * size;
  }
}
