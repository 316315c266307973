/** What the measure and layout passes promise, and why they agree: the two
    wrap tests are one test shifted by the left padding, so both passes break
    rows at the same children and the height the measure pass reserves is the
    height the layout pass uses. */
module FlowLayoutProperties {
  import opened FlowLayout

  /** The layout loop's variables are the measure loop's, shifted by the
      paddings: curLeft is paddingLeft + tmpWidth, curTop is paddingTop +
      measureHeight, and the two running row heights are equal. */
  lemma {:induction false} RunsCorrespond(sizes: seq<Size>, hInterval: int, vInterval: int,
                                          available: int, padding: Padding)
    ensures var m := MeasureRun(sizes, hInterval, vInterval, available);
            var l := LayoutRun(sizes, hInterval, vInterval, available, padding);
            l.curLeft == padding.left + m.tmpWidth &&
            l.curTop == padding.top + m.measureHeight &&
            l.maxHeight == m.maxLineHeight
    decreases |sizes|
  {
    if sizes != [] {
      RunsCorrespond(sizes[..|sizes| - 1], hInterval, vInterval, available, padding);
    }
  }

  /** Both passes start a new row at exactly the same children. */
  lemma WrapAgreement(sizes: seq<Size>, i: nat, hInterval: int, vInterval: int,
                      available: int, padding: Padding)
    requires i < |sizes|
    ensures MeasureWrapsAt(sizes, i, hInterval, vInterval, available)
        <==> LayoutWrapsAt(sizes, i, hInterval, vInterval, available, padding)
  {
    RunsCorrespond(sizes[..i], hInterval, vInterval, available, padding);
  }

  /** The content height the measure pass reserves is curTop + maxHeight -
      paddingTop at the end of the layout loop. */
  lemma HeightAgreement(sizes: seq<Size>, hInterval: int, vInterval: int,
                        available: int, padding: Padding)
    ensures var l := LayoutRun(sizes, hInterval, vInterval, available, padding);
            ContentHeight(sizes, hInterval, vInterval, available) == l.curTop + l.maxHeight - padding.top
  {
    RunsCorrespond(sizes, hInterval, vInterval, available, padding);
  }

  /** The layout pass gives one rectangle per child, and the rectangles of a
      prefix of the children are a prefix of the rectangles. */
  lemma {:induction false} LayoutRectsPrefix(sizes: seq<Size>, i: nat, hInterval: int, vInterval: int,
                                             available: int, padding: Padding)
    requires i <= |sizes|
    ensures |LayoutRun(sizes, hInterval, vInterval, available, padding).rects| == |sizes|
    ensures LayoutRun(sizes[..i], hInterval, vInterval, available, padding).rects
         == LayoutRun(sizes, hInterval, vInterval, available, padding).rects[..i]
    decreases |sizes|
  {
    if sizes == [] {
    } else {
      var init := sizes[..|sizes| - 1];
      LayoutRectsPrefix(init, if i < |sizes| then i else |init|, hInterval, vInterval, available, padding);
      if i < |sizes| {
        assert init[..i] == sizes[..i];
      } else {
        assert sizes[..i] == sizes;
      }
    }
  }

  /** The rectangle of child i: exactly the child's measured size; a wrapping
      child starts at the left padding one row further down, a child that does
      not wrap sits at the running position and ends at or before
      available + paddingLeft; the running left edge then moves past the child
      by the horizontal interval. */
  lemma ChildRect(sizes: seq<Size>, i: nat, hInterval: int, vInterval: int,
                  available: int, padding: Padding)
    requires i < |sizes|
    ensures |LayoutRun(sizes, hInterval, vInterval, available, padding).rects| == |sizes|
    ensures var rects := LayoutRun(sizes, hInterval, vInterval, available, padding).rects;
            var before := LayoutRun(sizes[..i], hInterval, vInterval, available, padding);
            var after := LayoutRun(sizes[..i + 1], hInterval, vInterval, available, padding);
            var r, c := rects[i], sizes[i];
            r.right == r.left + c.width && r.bottom == r.top + c.height &&
            (LayoutWrapsAt(sizes, i, hInterval, vInterval, available, padding) ==>
               r.left == padding.left &&
               r.top == before.curTop + FoldHeight(before.maxHeight, c.height) + vInterval) &&
            (!LayoutWrapsAt(sizes, i, hInterval, vInterval, available, padding) ==>
               r.left == before.curLeft && r.top == before.curTop &&
               r.right <= available + padding.left) &&
            after.curLeft == r.right + hInterval && after.curTop == r.top
  {
    LayoutRectsPrefix(sizes, i + 1, hInterval, vInterval, available, padding);
    assert sizes[..i + 1][..i] == sizes[..i];
  }

  /** Two neighbours in one row: the second starts one horizontal interval
      after the first ends, on the same top line, so with a non-negative
      interval they do not overlap. */
  lemma SameRowNeighbours(sizes: seq<Size>, i: nat, hInterval: int, vInterval: int,
                          available: int, padding: Padding)
    requires i + 1 < |sizes|
    requires !LayoutWrapsAt(sizes, i + 1, hInterval, vInterval, available, padding)
    ensures var rects := LayoutRun(sizes, hInterval, vInterval, available, padding).rects;
            |rects| == |sizes| &&
            rects[i + 1].left == rects[i].right + hInterval &&
            rects[i + 1].top == rects[i].top &&
            (hInterval >= 0 ==> rects[i].right <= rects[i + 1].left)
  {
    ChildRect(sizes, i, hInterval, vInterval, available, padding);
    ChildRect(sizes, i + 1, hInterval, vInterval, available, padding);
  }

  /** The running row height of the layout pass is never negative. */
  lemma {:induction false} RowHeightNonNegative(sizes: seq<Size>, hInterval: int, vInterval: int,
                                                available: int, padding: Padding)
    ensures LayoutRun(sizes, hInterval, vInterval, available, padding).maxHeight >= 0
    decreases |sizes|
  {
    if sizes != [] {
      RowHeightNonNegative(sizes[..|sizes| - 1], hInterval, vInterval, available, padding);
    }
  }

  /** With a non-negative vertical interval, curTop never decreases: each
      child's top is at or below the previous child's. */
  lemma TopsNonDecreasing(sizes: seq<Size>, i: nat, hInterval: int, vInterval: int,
                          available: int, padding: Padding)
    requires i + 1 < |sizes| && vInterval >= 0
    ensures var rects := LayoutRun(sizes, hInterval, vInterval, available, padding).rects;
            |rects| == |sizes| && rects[i].top <= rects[i + 1].top
  {
    ChildRect(sizes, i, hInterval, vInterval, available, padding);
    ChildRect(sizes, i + 1, hInterval, vInterval, available, padding);
    RowHeightNonNegative(sizes[..i + 1], hInterval, vInterval, available, padding);
  }

  /** Every rectangle given so far lies between the top padding and the bottom
      of the current row. */
  lemma {:induction false} RectsAboveRowBottom(sizes: seq<Size>, hInterval: int, vInterval: int,
                                               available: int, padding: Padding)
    requires vInterval >= 0
    ensures var l := LayoutRun(sizes, hInterval, vInterval, available, padding);
            l.maxHeight >= 0 && l.curTop >= padding.top &&
            forall k :: 0 <= k < |l.rects| ==>
              padding.top <= l.rects[k].top && l.rects[k].bottom <= l.curTop + l.maxHeight
    decreases |sizes|
  {
    if sizes != [] {
      var init := sizes[..|sizes| - 1];
      RectsAboveRowBottom(init, hInterval, vInterval, available, padding);
      var v := LayoutRun(init, hInterval, vInterval, available, padding);
      var l := LayoutRun(sizes, hInterval, vInterval, available, padding);
      var c := sizes[|sizes| - 1];
      assert l == LayoutStep(v, c, hInterval, vInterval, available, padding.left);
      var maxH := FoldHeight(v.maxHeight, c.height);
      assert maxH >= v.maxHeight && maxH >= c.height;
      forall k | 0 <= k < |l.rects|
        ensures padding.top <= l.rects[k].top && l.rects[k].bottom <= l.curTop + l.maxHeight
      {
        if k < |v.rects| {
          assert l.rects[k] == v.rects[k];
        }
      }
    }
  }

  /** With a non-negative vertical interval, every child's rectangle lies
      inside the content height the measure pass reserved below the top
      padding. */
  lemma ChildrenFitContentHeight(sizes: seq<Size>, hInterval: int, vInterval: int,
                                 available: int, padding: Padding)
    requires vInterval >= 0
    ensures var rects := LayoutRun(sizes, hInterval, vInterval, available, padding).rects;
            forall k :: 0 <= k < |rects| ==>
              padding.top <= rects[k].top &&
              rects[k].bottom <= padding.top + ContentHeight(sizes, hInterval, vInterval, available)
  {
    RectsAboveRowBottom(sizes, hInterval, vInterval, available, padding);
    HeightAgreement(sizes, hInterval, vInterval, available, padding);
  }

  /** With a non-negative horizontal interval the measure pass's running row
      width is never negative. */
  lemma {:induction false} RowWidthNonNegative(sizes: seq<Size>, hInterval: int, vInterval: int, available: int)
    requires hInterval >= 0
    ensures MeasureRun(sizes, hInterval, vInterval, available).tmpWidth >= 0
    decreases |sizes|
  {
    if sizes != [] {
      RowWidthNonNegative(sizes[..|sizes| - 1], hInterval, vInterval, available);
    }
  }

  /** A child wider than the available width starts a new row in both passes,
      wherever it stands, even first in its row. */
  lemma OversizedChildWraps(sizes: seq<Size>, i: nat, hInterval: int, vInterval: int,
                            available: int, padding: Padding)
    requires i < |sizes| && hInterval >= 0 && sizes[i].width > available
    ensures MeasureWrapsAt(sizes, i, hInterval, vInterval, available)
    ensures LayoutWrapsAt(sizes, i, hInterval, vInterval, available, padding)
  {
    RowWidthNonNegative(sizes[..i], hInterval, vInterval, available);
    WrapAgreement(sizes, i, hInterval, vInterval, available, padding);
  }

  /** A child wider than the available width is alone on its row: with a
      non-negative horizontal interval the child after it wraps too, in both
      passes. */
  lemma AloneOnRow(sizes: seq<Size>, i: nat, hInterval: int, vInterval: int,
                   available: int, padding: Padding)
    requires i + 1 < |sizes| && hInterval >= 0 && sizes[i].width > available
    ensures MeasureWrapsAt(sizes, i + 1, hInterval, vInterval, available)
    ensures LayoutWrapsAt(sizes, i + 1, hInterval, vInterval, available, padding)
  {
    OversizedChildWraps(sizes, i, hInterval, vInterval, available, padding);
    MeasureRunStep(sizes, i, hInterval, vInterval, available);
    WrapAgreement(sizes, i + 1, hInterval, vInterval, available, padding);
  }

  /** There is no first-in-row exemption: a first child wider than the
      available width wraps, leaving in front of it an empty row whose height
      is its own, and is placed one such row and one vertical interval down. */
  lemma OversizedFirstChild(sizes: seq<Size>, hInterval: int, vInterval: int,
                            available: int, padding: Padding)
    requires |sizes| > 0 && sizes[0].width > available
    ensures MeasureWrapsAt(sizes, 0, hInterval, vInterval, available)
    ensures LayoutWrapsAt(sizes, 0, hInterval, vInterval, available, padding)
    ensures MeasureRun(sizes[..1], hInterval, vInterval, available).measureHeight == sizes[0].height + vInterval
    ensures var rects := LayoutRun(sizes, hInterval, vInterval, available, padding).rects;
            var top := padding.top + sizes[0].height + vInterval;
            |rects| == |sizes| &&
            rects[0] == Rect(padding.left, top, padding.left + sizes[0].width, top + sizes[0].height)
  {
    ChildRect(sizes, 0, hInterval, vInterval, available, padding);
    assert sizes[..1][..0] == [];
  }

  /** Three children of widths 30, 40 and 50 and height 20, intervals 5,
      available width 100: the first two share a row (30 + 5 + 40 = 75), the
      third wraps (75 + 5 + 50 = 130), and the content height is 20 + 5 + 20. */
  lemma ThreeChildExample()
    ensures var sizes := [Size(30, 20), Size(40, 20), Size(50, 20)];
            !MeasureWrapsAt(sizes, 0, 5, 5, 100) && !MeasureWrapsAt(sizes, 1, 5, 5, 100) &&
            MeasureWrapsAt(sizes, 2, 5, 5, 100) &&
            ContentHeight(sizes, 5, 5, 100) == 45
  {
    var sizes := [Size(30, 20), Size(40, 20), Size(50, 20)];
    assert sizes[..0] == [] && sizes[..1] == [Size(30, 20)];
    assert sizes[..2] == [Size(30, 20), Size(40, 20)];
    assert sizes[..2][..1] == sizes[..1];
    assert sizes[..3] == sizes && sizes[..3][..2] == sizes[..2];
  }
}
