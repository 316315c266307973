# TagLayout in Dafny

A model of the core of `TagLayout`, an Android container that places "tag"
views left to right in rows that wrap at the available width. It also manages
those tags: adding, clearing, replacing, renaming, recolouring and restyling.
Two modules hold the model, and a third holds the proofs about the layout.

- `FlowLayout` (`flow_layout.dfy`) models the two layout passes:
  - the measure pass (`onMeasure`) as the method `Measure`;
  - the arrange pass (`onLayout`) as the method `Layout`.

  Both work over the children's measured sizes. Each is a `while` loop over
  the same running variables as the source. Each is proved equal to a
  specification function that follows the loop one iteration at a time
  (`MeasureRun`, `LayoutRun`).
- `FlowLayoutProperties` (`flow_layout_properties.dfy`) proves what the two
  passes promise together. The measure pass wraps when
  `tmpWidth - mHorizontalInterval > mAvailableWidth`. The arrange pass wraps
  when `width + curLeft > mAvailableWidth + paddingLeft`. These are one test
  shifted by the left padding, because `curLeft = paddingLeft + tmpWidth`
  holds throughout. So both passes break rows at exactly the same children.
  The content height the measure pass reserves equals `curTop + maxHeight -
  paddingTop` at the end of the arrange pass. With a non-negative vertical
  interval, every child's rectangle lies inside that height. With a
  non-negative horizontal interval, a child wider than the available width
  is alone on its row.
- `TagCollection` (`tag_collection.dfy`) models the collection manager. It is
  a class `TagLayout` whose `Tag` objects are shared between two sequences:
  - `children`, the container's children;
  - `tagViews`, the `mTagViews` list.

  In `MODE_CHANGE` the two orders differ. The list is `[control, t1, ..., tn]`.
  The children are `[t1, ..., tn, control]`. `Valid()` states this, and every
  operation keeps it. The tag mode is a `const`, since the source sets it only
  at construction.

The colour source `ColorsFactory.provideColor()` is a parameter:
- `draw(k)` is the pair returned by the k-th call within one operation;
- `pair` is the single draw of `addTag` or of the constructor.

## Model

| member | source | states |
|---|---|---|
| FlowLayout.Measure | taglibrary/src/main/java/com/dl7/tag/TagLayout.java:122-165 | The available width is the spec width minus the left and right padding. With no children the measured size is (0, 0). Otherwise the width is the width spec size. The height is the content height plus the top and bottom padding for UNSPECIFIED and AT_MOST, and exactly the height spec size for EXACTLY. The loop is proved equal to the step-by-step run of its variables. |
| FlowLayout.Layout | taglibrary/src/main/java/com/dl7/tag/TagLayout.java:168-203 | One rectangle per child, in child order, and none when there are no children. The available width is derived from the measured width. The rectangles are those of the step-by-step run of `curLeft`, `curTop` and `maxHeight`. |
| FlowLayout.FoldHeight | taglibrary/src/main/java/com/dl7/tag/TagLayout.java:138-142 | The running row height after a child joins is either the old row height or the child's height, and at least both when the row height is non-negative. |
| FlowLayoutProperties.RunsCorrespond | taglibrary/src/main/java/com/dl7/tag/TagLayout.java:132-201 | After any prefix of the children the arrange pass's variables equal the measure pass's shifted by the paddings: `curLeft = paddingLeft + tmpWidth`, `curTop = paddingTop + measureHeight`, `maxHeight = maxLineHeight`. |
| FlowLayoutProperties.WrapAgreement | taglibrary/src/main/java/com/dl7/tag/TagLayout.java:144-197 | The measure pass's wrap test holds at child i if and only if the arrange pass's holds at child i. |
| FlowLayoutProperties.HeightAgreement | taglibrary/src/main/java/com/dl7/tag/TagLayout.java:135-197 | The content height (`measureHeight` after line 155) equals `curTop + maxHeight - paddingTop` at the end of the arrange loop. |
| FlowLayoutProperties.LayoutRectsPrefix | taglibrary/src/main/java/com/dl7/tag/TagLayout.java:180-201 | The arrange pass gives exactly one rectangle per child. The rectangles of a prefix of the children are that prefix of the rectangles. |
| FlowLayoutProperties.ChildRect | taglibrary/src/main/java/com/dl7/tag/TagLayout.java:189-201 | Each child's rectangle has exactly its measured width and height. A wrapping child starts at `paddingLeft`, one closed row (including its own height) and one vertical interval down. A child that does not wrap sits at the running position, and its right edge is at or before `available + paddingLeft`. `curLeft` then moves to the right edge plus the horizontal interval. |
| FlowLayoutProperties.SameRowNeighbours | taglibrary/src/main/java/com/dl7/tag/TagLayout.java:199-201 | When child i+1 does not wrap, it starts one horizontal interval after child i ends, on the same top line. With a non-negative interval the two do not overlap. |
| FlowLayoutProperties.RowHeightNonNegative | taglibrary/src/main/java/com/dl7/tag/TagLayout.java:183-196 | The arrange pass's running row height is never negative. |
| FlowLayoutProperties.TopsNonDecreasing | taglibrary/src/main/java/com/dl7/tag/TagLayout.java:192-199 | With a non-negative vertical interval, no child's top is above the previous child's, so `curTop` never decreases. |
| FlowLayoutProperties.RectsAboveRowBottom | taglibrary/src/main/java/com/dl7/tag/TagLayout.java:176-201 | With a non-negative vertical interval, every rectangle placed so far lies between the top padding and the bottom of the current row. |
| FlowLayoutProperties.ChildrenFitContentHeight | taglibrary/src/main/java/com/dl7/tag/TagLayout.java:155-201 | With a non-negative vertical interval, every child's rectangle lies between the top padding and the top padding plus the content height the measure pass reserved. |
| FlowLayoutProperties.RowWidthNonNegative | taglibrary/src/main/java/com/dl7/tag/TagLayout.java:144-150 | With a non-negative horizontal interval, the measure pass's running row width is never negative. |
| FlowLayoutProperties.OversizedChildWraps | taglibrary/src/main/java/com/dl7/tag/TagLayout.java:144-197 | With a non-negative horizontal interval, a child wider than the available width wraps in both passes, wherever it stands, including first in its row. |
| FlowLayoutProperties.AloneOnRow | taglibrary/src/main/java/com/dl7/tag/TagLayout.java:144-197 | With a non-negative horizontal interval, the child after one wider than the available width wraps too, in both passes, so the oversized child is alone on its row. |
| FlowLayoutProperties.OversizedFirstChild | taglibrary/src/main/java/com/dl7/tag/TagLayout.java:135-199 | A first child wider than the available width wraps in both passes. The measure pass closes an empty row whose height is that child's own. The child is placed at (`paddingLeft`, `paddingTop` + its height + the vertical interval). |
| FlowLayoutProperties.ThreeChildExample | taglibrary/src/main/java/com/dl7/tag/TagLayout.java:135-155 | Widths 30, 40, 50, height 20, intervals 5, available width 100: only the third child wraps, and the content height is 45. |
| TagCollection.Tag.Styled | taglibrary/src/main/java/com/dl7/tag/TagLayout.java:294-317 | A tag view created with its text and then given every property `_initTagView` writes. |
| TagCollection.TagLayout.constructor | taglibrary/src/main/java/com/dl7/tag/TagLayout.java:81-119 | The mode and the defaults come from the attributes and the listener is unset. In MODE_NORMAL both sequences are empty. In MODE_CHANGE a fresh control tag, labelled with the control text, styled as new and in mode MODE_CHANGE, is the only list entry and the only child. |
| TagCollection.TagLayout.InitTagView | taglibrary/src/main/java/com/dl7/tag/TagLayout.java:293-320 | A fresh tag is appended to the list (not to the children). It carries its text, its mode and the current listener. In random mode the border is c0, and the text is c0 with press feedback or the background is c1 without. Otherwise it gets the three default colours. All other defaults are copied. |
| TagCollection.TagLayout.AddTag | taglibrary/src/main/java/com/dl7/tag/TagLayout.java:457-463 | The list grows by one fresh, newly styled tag at its end. In MODE_CHANGE the tag becomes the child just before the control tag, which stays last. In MODE_NORMAL it is appended to the children. The invariant is kept. |
| TagCollection.TagLayout.AddTags | taglibrary/src/main/java/com/dl7/tag/TagLayout.java:470-474 | One fresh tag per text, in input order, appended to the list. The k-th tag is styled with the k-th draw. The children are the old ones plus the new tags, with the control tag still last in MODE_CHANGE. |
| TagCollection.TagLayout.CleanTags | taglibrary/src/main/java/com/dl7/tag/TagLayout.java:479-489 | In MODE_CHANGE the control tag is left as the only child and the only list entry. In MODE_NORMAL both sequences become empty. |
| TagCollection.TagLayout.SetTags | taglibrary/src/main/java/com/dl7/tag/TagLayout.java:496-499 | The list is the control tag (MODE_CHANGE only) followed by one fresh, newly styled tag per text, in input order. The children are those new tags followed by the control tag. This is the effect of cleanTags followed by addTags. |
| TagCollection.TagLayout.UpdateTags | taglibrary/src/main/java/com/dl7/tag/TagLayout.java:506-530 | No tag is added or removed and both sequences are unchanged. List entries from `startPos` (1 in MODE_CHANGE) take the texts by position, up to the number of normal tags. Extra texts are dropped and other entries keep their text. In either mode these are the first children in child order. In random mode every entry, the control tag included, gets border c0 of its own draw, plus updateTagColor(c0) with press feedback or background c1 without. Otherwise no colour changes. |
| TagCollection.TagLayout.RenameTags | taglibrary/src/main/java/com/dl7/tag/TagLayout.java:515-517 | Entries `startPos .. startPos + count - 1` take texts `0 .. count - 1`, and every other entry keeps its text. |
| TagCollection.TagLayout.RecolorTags | taglibrary/src/main/java/com/dl7/tag/TagLayout.java:518-529 | In random-colour mode, entry k gets border c0 of the k-th draw, plus updateTagColor(c0) with press feedback or background c1 without. The colour not targeted is untouched. Otherwise no colour changes. No text changes. |
| TagCollection.TagLayout.SetOnTagClickListener | taglibrary/src/main/java/com/dl7/tag/TagLayout.java:425-431 | The listener is stored and every tag in the list, created before or after, now has it. |
| TagCollection.TagLayout.SetTagBgColor | taglibrary/src/main/java/com/dl7/tag/TagLayout.java:326-331 | The default background colour changes. The control tag, if any, takes it. No other tag in the list is restyled. |
| TagCollection.TagLayout.SetTagBorderColor | taglibrary/src/main/java/com/dl7/tag/TagLayout.java:337-342 | The same, for the border colour. |
| TagCollection.TagLayout.SetTagTextColor | taglibrary/src/main/java/com/dl7/tag/TagLayout.java:348-353 | The same, for the text colour. |
| TagCollection.TagLayout.SetTagBorderWidth | taglibrary/src/main/java/com/dl7/tag/TagLayout.java:359-364 | The same, for the border width (given in pixels). |
| TagCollection.TagLayout.SetTagTextSize | taglibrary/src/main/java/com/dl7/tag/TagLayout.java:370-375 | The same, for the text size. |
| TagCollection.TagLayout.SetTagRadius | taglibrary/src/main/java/com/dl7/tag/TagLayout.java:381-386 | The same, for the corner radius. |
| TagCollection.TagLayout.SetTagHorizontalPadding | taglibrary/src/main/java/com/dl7/tag/TagLayout.java:392-397 | The same, for the horizontal padding. |
| TagCollection.TagLayout.SetTagVerticalPadding | taglibrary/src/main/java/com/dl7/tag/TagLayout.java:403-408 | The same, for the vertical padding. |
| TagCollection.TagLayout.SetPressFeedback | taglibrary/src/main/java/com/dl7/tag/TagLayout.java:414-419 | The same, for press feedback. The flag also decides the colour target of later new tags and later updateTags calls. |
| TagCollection.TagLayout.SetIconPadding | taglibrary/src/main/java/com/dl7/tag/TagLayout.java:441-446 | The same, for the icon padding. |
| TagCollection.TagLayout.SetTagShape | taglibrary/src/main/java/com/dl7/tag/TagLayout.java:433-435 | Only the stored default shape changes. No tag, not even the control tag, is touched. |
| TagCollection.TagLayout.SetEnableRandomColor | taglibrary/src/main/java/com/dl7/tag/TagLayout.java:437-439 | Only the stored random-colour flag changes. |

Behaviour of the code that the model keeps as written:
- A row's first child is not exempt from the wrap test. A first child wider
  than the available width wraps and leaves an empty row in front of it
  (`OversizedFirstChild`).
- A wrapping child's height is folded into the row it closes, because the
  `max` comes before the wrap test.
- The two wrap formulas look different but are one test shifted by the left
  padding (`WrapAgreement`).
- In MODE_CHANGE the list order is not the child order: the control tag
  heads the list and is the last child.

## Left out

- Measure: does not model 32-bit overflow of `tmpWidth` or `measureHeight`; sizes and sums are unbounded integers.
- Layout: does not model 32-bit overflow of `curLeft` or `curTop`, and does not use the `l, t, r, b` arguments, which the source ignores as well.
- `measureChildren`, and the children's own measuring, are outside the model. The children's measured sizes are the input of both passes.
- `mAvailableWidth` is a field in the source. `Measure` returns it and `Layout` recomputes it, as the source does.
- `onSizeChanged` and `onDraw` are left out: they draw the rounded border with floats, a `Paint` and a `Canvas`.
- Styled-attribute parsing in `_init` is left out, including the border colour read from the background-colour attribute. The constructor takes the parsed values.
- The padding that `_init` sets from the intervals is not modelled. The layout passes take paddings and intervals separately, because `setHorizontalInterval` and `setVerticalInterval` do not change the padding.
- `MeasureUtils.dp2px` is left out: `SetTagBorderWidth` takes a value already in pixels. Float values are stored and copied, never computed with.
- `TagView` internals are left out. A tag is the record of what TagLayout writes into it. `updateTagColor(c)` is recorded as `feedbackColor`, because what it changes inside the tag view is not part of this model.
- `ColorsFactory.provideColor()` is replaced by the `draw`/`pair` parameters.
- Container accessors (`setBgColor`, `setBorderColor`, `setRadius`, `setVerticalInterval`, `setHorizontalInterval`, `setFitTagNum`) and the getters are trivial field reads and writes. `setBorderWidth` is left out too: it stores its argument after converting it with `MeasureUtils.dp2px`, which is not modelled (see above). The layout passes take the intervals as parameters. `mFitTagNum` is used by nothing in the layout logic.
- `postInvalidate` and the re-layout requests made by `addView` and `removeViews` are framework side effects and are left out.
- Threading belongs to the UI framework and is left out.
