/** The flow-layout engine of TagLayout: the measure pass (onMeasure) and the
    arrange pass (onLayout). Children are given by their measured sizes; the
    container's paddings and the two intervals are parameters, because
    setHorizontalInterval/setVerticalInterval change the intervals without
    changing the paddings that were set from them at construction. */
module FlowLayout {

  /** A child's measured size as the framework reports it (never negative). */
  datatype Size = Size(width: nat, height: nat)

  /** The mode part of the height measure spec. */
  datatype HeightMode = Unspecified | AtMost | Exactly

  datatype Padding = Padding(left: int, top: int, right: int, bottom: int)

  /** The rectangle handed to child.layout(l, t, r, b). */
  datatype Rect = Rect(left: int, top: int, right: int, bottom: int)

  function Max(a: int, b: int): int { if a < b then b else a }

  /** The row height after a child of height `height` joins it; both passes do
      this BEFORE their wrap test, so a wrapping child is folded into the row
      it closes. */
  function FoldHeight(rowHeight: int, height: nat): (r: int)
    ensures rowHeight >= 0 ==> r >= rowHeight && r >= height
    ensures r == rowHeight || r == height
  {
    if rowHeight == 0 then height else Max(rowHeight, height)
  }

  /** Wrap test of the measure pass: the running row width, which counts one
      trailing interval per child, minus the last interval, exceeds the
      available width. `tmpWidth` is the running width before this child. */
  predicate MeasureWraps(tmpWidth: int, width: nat, hInterval: int, available: int)
  {
    (tmpWidth + width + hInterval) - hInterval > available
  }

  /** Wrap test of the arrange pass, against the left edge shifted by the
      left padding. */
  predicate LayoutWraps(curLeft: int, width: nat, available: int, paddingLeft: int)
  {
    width + curLeft > available + paddingLeft
  }

  // ---------------------------------------------------------------- measure

  /** The running variables of the measure loop. */
  datatype MeasureVars = MeasureVars(tmpWidth: int, maxLineHeight: int, measureHeight: int)

  /** One iteration of the measure loop. */
  function MeasureStep(v: MeasureVars, c: Size, hInterval: int, vInterval: int, available: int): MeasureVars
  {
    var maxLine := FoldHeight(v.maxLineHeight, c.height);
    if MeasureWraps(v.tmpWidth, c.width, hInterval, available) then
      MeasureVars(c.width + hInterval, c.height, v.measureHeight + maxLine + vInterval)
    else
      MeasureVars(v.tmpWidth + c.width + hInterval, maxLine, v.measureHeight)
  }

  /** The measure loop's variables after it has visited all of `sizes`. */
  function MeasureRun(sizes: seq<Size>, hInterval: int, vInterval: int, available: int): MeasureVars
    decreases |sizes|
  {
    if sizes == [] then MeasureVars(0, 0, 0)
    else
      MeasureStep(MeasureRun(sizes[..|sizes| - 1], hInterval, vInterval, available),
                  sizes[|sizes| - 1], hInterval, vInterval, available)
  }

  /** One more child is one more iteration of the measure loop. */
  lemma MeasureRunStep(sizes: seq<Size>, i: nat, hInterval: int, vInterval: int, available: int)
    requires i < |sizes|
    ensures MeasureRun(sizes[..i + 1], hInterval, vInterval, available)
         == MeasureStep(MeasureRun(sizes[..i], hInterval, vInterval, available), sizes[i], hInterval, vInterval, available)
  {
    assert sizes[..i + 1][..i] == sizes[..i];
  }

  /** The content height the measure pass reserves: closed rows plus the last one. */
  function ContentHeight(sizes: seq<Size>, hInterval: int, vInterval: int, available: int): int
  {
    var v := MeasureRun(sizes, hInterval, vInterval, available);
    v.measureHeight + v.maxLineHeight
  }

  /** Whether the measure pass starts a new row at child `i`. */
  predicate MeasureWrapsAt(sizes: seq<Size>, i: nat, hInterval: int, vInterval: int, available: int)
    requires i < |sizes|
  {
    MeasureWraps(MeasureRun(sizes[..i], hInterval, vInterval, available).tmpWidth, sizes[i].width, hInterval, available)
  }

  /** onMeasure: returns the measured dimension and the available width it
      stores. */
  method Measure(sizes: seq<Size>, widthSpecSize: nat, heightSpecSize: nat, heightMode: HeightMode,
                 padding: Padding, hInterval: int, vInterval: int)
    returns (measuredWidth: int, measuredHeight: int, available: int)
    ensures available == widthSpecSize - padding.left - padding.right
    ensures sizes == [] ==> measuredWidth == 0 && measuredHeight == 0
    ensures sizes != [] ==> measuredWidth == widthSpecSize
    ensures sizes != [] && heightMode != Exactly ==>
              measuredHeight == ContentHeight(sizes, hInterval, vInterval, available) + padding.top + padding.bottom
    ensures sizes != [] && heightMode == Exactly ==> measuredHeight == heightSpecSize
  {
    available := widthSpecSize - padding.left - padding.right;
    var tmpWidth, measureHeight, maxLineHeight := 0, 0, 0;
    var i := 0;
    while i < |sizes|
      invariant 0 <= i <= |sizes|
      invariant MeasureRun(sizes[..i], hInterval, vInterval, available)
                == MeasureVars(tmpWidth, maxLineHeight, measureHeight)
    {
      ghost var v := MeasureVars(tmpWidth, maxLineHeight, measureHeight);
      var child := sizes[i];
      if maxLineHeight == 0 {
        maxLineHeight := child.height;
      } else {
        maxLineHeight := Max(maxLineHeight, child.height);
      }
      tmpWidth := tmpWidth + child.width + hInterval;
      if tmpWidth - hInterval > available {
        measureHeight := measureHeight + maxLineHeight + vInterval;
        tmpWidth := child.width + hInterval;
        maxLineHeight := child.height;
      }
      assert MeasureVars(tmpWidth, maxLineHeight, measureHeight) == MeasureStep(v, child, hInterval, vInterval, available);
      MeasureRunStep(sizes, i, hInterval, vInterval, available);
      i := i + 1;
    }
    assert sizes[..i] == sizes;
    measureHeight := measureHeight + maxLineHeight;
    if |sizes| == 0 {
      measuredWidth, measuredHeight := 0, 0;
    } else if heightMode == Unspecified || heightMode == AtMost {
      measuredWidth, measuredHeight := widthSpecSize, measureHeight + padding.top + padding.bottom;
    } else {
      measuredWidth, measuredHeight := widthSpecSize, heightSpecSize;
    }
  }

  // ----------------------------------------------------------------- layout

  /** The running variables of the layout loop, with the rectangles given so far. */
  datatype LayoutVars = LayoutVars(curLeft: int, curTop: int, maxHeight: int, rects: seq<Rect>)

  /** One iteration of the layout loop. */
  function LayoutStep(v: LayoutVars, c: Size, hInterval: int, vInterval: int, available: int, paddingLeft: int): LayoutVars
  {
    var maxH := FoldHeight(v.maxHeight, c.height);
    if LayoutWraps(v.curLeft, c.width, available, paddingLeft) then
      var top := v.curTop + maxH + vInterval;
      LayoutVars(paddingLeft + c.width + hInterval, top, c.height,
                 v.rects + [Rect(paddingLeft, top, paddingLeft + c.width, top + c.height)])
    else
      LayoutVars(v.curLeft + c.width + hInterval, v.curTop, maxH,
                 v.rects + [Rect(v.curLeft, v.curTop, v.curLeft + c.width, v.curTop + c.height)])
  }

  /** The layout loop's variables after it has visited all of `sizes`. */
  function LayoutRun(sizes: seq<Size>, hInterval: int, vInterval: int, available: int, padding: Padding): LayoutVars
    decreases |sizes|
  {
    if sizes == [] then LayoutVars(padding.left, padding.top, 0, [])
    else
      LayoutStep(LayoutRun(sizes[..|sizes| - 1], hInterval, vInterval, available, padding),
                 sizes[|sizes| - 1], hInterval, vInterval, available, padding.left)
  }

  /** One more child is one more iteration of the layout loop. */
  lemma LayoutRunStep(sizes: seq<Size>, i: nat, hInterval: int, vInterval: int, available: int, padding: Padding)
    requires i < |sizes|
    ensures LayoutRun(sizes[..i + 1], hInterval, vInterval, available, padding)
         == LayoutStep(LayoutRun(sizes[..i], hInterval, vInterval, available, padding), sizes[i],
                       hInterval, vInterval, available, padding.left)
  {
    assert sizes[..i + 1][..i] == sizes[..i];
  }

  /** Whether the layout pass starts a new row at child `i`. */
  predicate LayoutWrapsAt(sizes: seq<Size>, i: nat, hInterval: int, vInterval: int, available: int, padding: Padding)
    requires i < |sizes|
  {
    LayoutWraps(LayoutRun(sizes[..i], hInterval, vInterval, available, padding).curLeft, sizes[i].width, available, padding.left)
  }

  /** onLayout: the rectangle of every child, in child order. */
  method Layout(sizes: seq<Size>, measuredWidth: int, padding: Padding, hInterval: int, vInterval: int)
    returns (rects: seq<Rect>)
    ensures |rects| == |sizes|
    ensures rects == LayoutRun(sizes, hInterval, vInterval, measuredWidth - padding.left - padding.right, padding).rects
  {
    if |sizes| <= 0 {
      return [];
    }
    var available := measuredWidth - padding.left - padding.right;
    var curTop := padding.top;
    var curLeft := padding.left;
    var maxHeight := 0;
    rects := [];
    var i := 0;
    while i < |sizes|
      invariant 0 <= i <= |sizes| && |rects| == i
      invariant LayoutRun(sizes[..i], hInterval, vInterval, available, padding)
                == LayoutVars(curLeft, curTop, maxHeight, rects)
    {
      ghost var v := LayoutVars(curLeft, curTop, maxHeight, rects);
      var child := sizes[i];
      if maxHeight == 0 {
        maxHeight := child.height;
      } else {
        maxHeight := Max(maxHeight, child.height);
      }
      var width, height := child.width, child.height;
      if width + curLeft > available + padding.left {
        curLeft := padding.left;
        curTop := curTop + maxHeight + vInterval;
        maxHeight := child.height;
      }
      rects := rects + [Rect(curLeft, curTop, curLeft + width, curTop + height)];
      curLeft := curLeft + width + hInterval;
      assert LayoutVars(curLeft, curTop, maxHeight, rects) == LayoutStep(v, child, hInterval, vInterval, available, padding.left);
      LayoutRunStep(sizes, i, hInterval, vInterval, available, padding);
      i := i + 1;
    }
    assert sizes[..i] == sizes;
  }
}
