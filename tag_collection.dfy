/** The tag collection of TagLayout: the list of tag views it keeps, the
    container's child order, the optional control tag of MODE_CHANGE, the
    style defaults new tags take, and the random-colour policy. Tags are
    objects shared by the two sequences, so a text or colour written through
    the list is seen through the children. */
module TagCollection {

  datatype Option<T> = None | Some(value: T)

  /** TagView.MODE_NORMAL and TagView.MODE_CHANGE. */
  datatype TagMode = ModeNormal | ModeChange

  /** A click listener, or none (a null reference in the source). */
  datatype Listener = NoListener | Handler(id: nat)

  /** One draw of the colour source: color[0] and color[1]. */
  datatype ColorPair = ColorPair(c0: int, c1: int)

  /** The styling defaults TagLayout keeps for the tags it creates. Float
      values are carried as they are; nothing is computed with them. */
  datatype TagStyle = TagStyle(
    bgColor: int, borderColor: int, textColor: int,
    borderWidth: real, textSize: real, radius: real,
    horizontalPadding: int, verticalPadding: int, iconPadding: int,
    shape: int, pressFeedback: bool, randomColor: bool)

  /** Label of the control tag of MODE_CHANGE. */
  const ControlText: string := "换一换"

  /** The part of a tag view that TagLayout writes. A colour that is None was
      never set by TagLayout and keeps the tag view's own default;
      feedbackColor is the last colour given to updateTagColor. */
  class Tag {
    var text: string
    var bgColor: Option<int>
    var borderColor: Option<int>
    var textColor: Option<int>
    var feedbackColor: Option<int>
    var borderWidth: real
    var radius: real
    var textSize: real
    var horizontalPadding: int
    var verticalPadding: int
    var iconPadding: int
    var pressFeedback: bool
    var clickListener: Listener
    var shape: int
    var tagMode: TagMode

    /** A tag view as _initTagView leaves it: created with `text`, then every
        property written in turn. */
    constructor Styled(text: string, bgColor: Option<int>, borderColor: Option<int>, textColor: Option<int>,
                       style: TagStyle, listener: Listener, tagMode: TagMode)
      ensures this.text == text && this.tagMode == tagMode && feedbackColor == None
      ensures this.bgColor == bgColor && this.borderColor == borderColor && this.textColor == textColor
      ensures borderWidth == style.borderWidth && radius == style.radius && textSize == style.textSize
      ensures horizontalPadding == style.horizontalPadding && verticalPadding == style.verticalPadding
      ensures pressFeedback == style.pressFeedback && clickListener == listener
      ensures shape == style.shape && iconPadding == style.iconPadding
    {
      this.text := text;
      this.bgColor, this.borderColor, this.textColor, feedbackColor := bgColor, borderColor, textColor, None;
      borderWidth, radius, textSize := style.borderWidth, style.radius, style.textSize;
      horizontalPadding, verticalPadding := style.horizontalPadding, style.verticalPadding;
      pressFeedback, clickListener := style.pressFeedback, listener;
      shape, this.tagMode, iconPadding := style.shape, tagMode, style.iconPadding;
    }
  }

  /** What _initTagView gives a new tag: its text and mode, the colours of the
      colour policy (random: border = c0, and text = c0 with press feedback,
      background = c1 without; otherwise the three default colours), every
      other default, and the current click listener. */
  ghost predicate StyledAsNew(t: Tag, text: string, tagMode: TagMode, pair: ColorPair,
                              style: TagStyle, listener: Listener)
    reads t
  {
    t.text == text && t.tagMode == tagMode && t.feedbackColor == None &&
    (if style.randomColor then
       t.borderColor == Some(pair.c0) &&
       (if style.pressFeedback then t.textColor == Some(pair.c0) && t.bgColor == None
        else t.bgColor == Some(pair.c1) && t.textColor == None)
     else
       t.bgColor == Some(style.bgColor) && t.borderColor == Some(style.borderColor) &&
       t.textColor == Some(style.textColor)) &&
    t.borderWidth == style.borderWidth && t.radius == style.radius && t.textSize == style.textSize &&
    t.horizontalPadding == style.horizontalPadding && t.verticalPadding == style.verticalPadding &&
    t.pressFeedback == style.pressFeedback && t.clickListener == listener &&
    t.shape == style.shape && t.iconPadding == style.iconPadding
  }

  class TagLayout {
    /** Set once at construction; there is no setter. */
    const mode: TagMode
    /** The container's children, in drawing order. */
    var children: seq<Tag>
    /** mTagViews: the tags currently held, in creation order (the control tag
        first in MODE_CHANGE). */
    var tagViews: seq<Tag>
    /** mFitTagView: the control tag in MODE_CHANGE, null otherwise. */
    var fitTag: Tag?
    var style: TagStyle
    var clickListener: Listener

    /** In MODE_NORMAL the list and the children agree. In MODE_CHANGE the
        control tag heads the list but is the LAST child: the list is
        [control, t1, ..., tn] and the children are [t1, ..., tn, control]. */
    ghost predicate Valid()
      reads this
    {
      (mode == ModeNormal ==> fitTag == null && children == tagViews) &&
      (mode == ModeChange ==>
         fitTag != null && |tagViews| >= 1 && tagViews[0] == fitTag &&
         children == tagViews[1..] + [fitTag]) &&
      forall i, j :: 0 <= i < j < |tagViews| ==> tagViews[i] != tagViews[j]
    }

    /** The control tag, as a frame: empty when there is none. */
    ghost function ControlTag(): set<Tag>
      reads this
    {
      if fitTag == null then {} else {fitTag}
    }

    /** The list index of the first tag updateTags may rename (startPos). */
    function FirstTextSlot(): (start: nat)
      reads this
      ensures start == 0 || start == 1
    {
      if mode == ModeChange then 1 else 0
    }

    /** The construction part of _init: the mode and the styling defaults come
        from the styled attributes; in MODE_CHANGE the control tag is created
        (taking the colour pair `pair`) and added as the only child. */
    constructor(tagMode: TagMode, attrs: TagStyle, pair: ColorPair)
      ensures Valid()
      ensures mode == tagMode && style == attrs && clickListener == NoListener
      ensures mode == ModeNormal ==> tagViews == [] && children == []
      ensures mode == ModeChange ==>
                tagViews == [fitTag] && children == [fitTag] && fresh(fitTag) &&
                StyledAsNew(fitTag, ControlText, ModeChange, pair, style, NoListener)
    {
      mode := tagMode;
      style := attrs;
      clickListener := NoListener;
      children, tagViews, fitTag := [], [], null;
      new;
      if tagMode == ModeChange {
        var control := InitTagView(ControlText, ModeChange, pair);
        fitTag := control;
        children := [control];
      }
    }

    /** _initTagView: creates a tag styled from the current defaults (or the
        colour pair in random mode), gives it the current listener and appends
        it to the list; it is not yet a child. */
    method InitTagView(text: string, tagMode: TagMode, pair: ColorPair) returns (t: Tag)
      modifies this`tagViews
      ensures fresh(t) && tagViews == old(tagViews) + [t]
      ensures StyledAsNew(t, text, tagMode, pair, style, clickListener)
    {
      var bg, border, textColor := None, None, None;
      if style.randomColor {
        if style.pressFeedback {
          textColor := Some(pair.c0);
        } else {
          bg := Some(pair.c1);
        }
        border := Some(pair.c0);
      } else {
        bg := Some(style.bgColor);
        border := Some(style.borderColor);
        textColor := Some(style.textColor);
      }
      t := new Tag.Styled(text, bg, border, textColor, style, clickListener, tagMode);
      tagViews := tagViews + [t];
    }

    /** addTag: a new normal tag is appended to the list; as a child it is
        inserted just before the control tag in MODE_CHANGE, so the control tag
        stays last, and appended in MODE_NORMAL. */
    method AddTag(text: string, pair: ColorPair)
      requires Valid()
      modifies this`tagViews, this`children
      ensures Valid()
      ensures |tagViews| == |old(tagViews)| + 1 && tagViews[..|old(tagViews)|] == old(tagViews)
      ensures fresh(tagViews[|old(tagViews)|])
      ensures StyledAsNew(tagViews[|old(tagViews)|], text, ModeNormal, pair, style, clickListener)
      ensures mode == ModeChange ==>
                children == old(children)[..|old(children)| - 1] + [tagViews[|old(tagViews)|], fitTag]
      ensures mode == ModeNormal ==> children == old(children) + [tagViews[|old(tagViews)|]]
    {
      var t := InitTagView(text, ModeNormal, pair);
      if mode == ModeChange {
        var last := |children| - 1;
        children := children[..last] + [t] + children[last..];
      } else {
        children := children + [t];
      }
      assert t !in old(tagViews);
    }

    /** addTags: addTag for each text in order; the k-th new tag takes the
        k-th colour draw. */
    method AddTags(texts: seq<string>, draw: nat -> ColorPair)
      requires Valid()
      modifies this`tagViews, this`children
      ensures Valid()
      ensures |tagViews| == |old(tagViews)| + |texts| && tagViews[..|old(tagViews)|] == old(tagViews)
      ensures forall j :: |old(tagViews)| <= j < |tagViews| ==> fresh(tagViews[j])
      ensures forall j :: |old(tagViews)| <= j < |tagViews| ==>
                StyledAsNew(tagViews[j], texts[j - |old(tagViews)|], ModeNormal, draw(j - |old(tagViews)|),
                            style, clickListener)
      ensures mode == ModeChange ==>
                children == old(children)[..|old(children)| - 1] + tagViews[|old(tagViews)|..] + [fitTag]
      ensures mode == ModeNormal ==> children == old(children) + tagViews[|old(tagViews)|..]
    {
      var n := |tagViews|;
      for i := 0 to |texts|
        invariant Valid()
        invariant |tagViews| == n + i && tagViews[..n] == old(tagViews)
        invariant forall j :: n <= j < n + i ==> fresh(tagViews[j])
        invariant forall j :: n <= j < n + i ==>
                    StyledAsNew(tagViews[j], texts[j - n], ModeNormal, draw(j - n), style, clickListener)
      {
        ghost var before := tagViews;
        AddTag(texts[i], draw(i));
        assert forall j :: 0 <= j < n + i ==> tagViews[j] == before[j];
      }
    }

    /** cleanTags: in MODE_CHANGE only the control tag is left, as the only
        child and the only list entry; in MODE_NORMAL both become empty. */
    method CleanTags()
      requires Valid()
      modifies this`tagViews, this`children
      ensures Valid()
      ensures mode == ModeChange ==> tagViews == [fitTag] && children == [fitTag]
      ensures mode == ModeNormal ==> tagViews == [] && children == []
    {
      if mode == ModeChange {
        children := children[|children| - 1..];
        tagViews := [];
        tagViews := tagViews + [fitTag];
      } else {
        children := [];
        tagViews := [];
      }
    }

    /** setTags: cleanTags, then addTags with the texts in order. */
    method SetTags(texts: seq<string>, draw: nat -> ColorPair)
      requires Valid()
      modifies this`tagViews, this`children
      ensures Valid()
      ensures children == tagViews[FirstTextSlot()..] + (if mode == ModeChange then [fitTag] else [])
      ensures |tagViews| == FirstTextSlot() + |texts|
      ensures forall j :: FirstTextSlot() <= j < |tagViews| ==> fresh(tagViews[j])
      ensures forall j :: FirstTextSlot() <= j < |tagViews| ==>
                StyledAsNew(tagViews[j], texts[j - FirstTextSlot()], ModeNormal, draw(j - FirstTextSlot()),
                            style, clickListener)
    {
      CleanTags();
      AddTags(texts, draw);
    }

    /** updateTags: renames the first min(|texts|, number of normal tags) list
        entries after the control tag's slot, by position; other texts are
        dropped and no tag is added or removed. In random mode every list
        entry, the control tag included, then takes the colours of its own
        draw: border = c0, and updateTagColor(c0) with press feedback,
        background = c1 without. */
    method UpdateTags(texts: seq<string>, draw: nat -> ColorPair)
      requires Valid()
      modifies tagViews`text, tagViews`bgColor, tagViews`borderColor, tagViews`feedbackColor
      ensures Valid() && tagViews == old(tagViews) && children == old(children)
      ensures forall k :: 0 <= k < |tagViews| ==>
                tagViews[k].text ==
                  if FirstTextSlot() <= k < FirstTextSlot() + |texts| then texts[k - FirstTextSlot()]
                  else old(tagViews[k].text)
      ensures forall k :: 0 <= k < |texts| && k < |tagViews| - FirstTextSlot() ==> children[k].text == texts[k]
      ensures forall k :: 0 <= k < |tagViews| && style.randomColor ==>
                tagViews[k].borderColor == Some(draw(k).c0) &&
                (if style.pressFeedback then
                   tagViews[k].feedbackColor == Some(draw(k).c0) && tagViews[k].bgColor == old(tagViews[k].bgColor)
                 else
                   tagViews[k].bgColor == Some(draw(k).c1) && tagViews[k].feedbackColor == old(tagViews[k].feedbackColor))
      ensures forall k :: 0 <= k < |tagViews| && !style.randomColor ==>
                tagViews[k].borderColor == old(tagViews[k].borderColor) &&
                tagViews[k].bgColor == old(tagViews[k].bgColor) &&
                tagViews[k].feedbackColor == old(tagViews[k].feedbackColor)
    {
      var startPos := 0;
      var minSize;
      if mode == ModeChange {
        startPos := 1;
        minSize := if |texts| < |tagViews| - 1 then |texts| else |tagViews| - 1;
      } else {
        minSize := if |texts| < |tagViews| then |texts| else |tagViews|;
      }
      RenameTags(texts, startPos, minSize);
      RecolorTags(draw);
    }

    /** The renaming loop of updateTags: list entries startPos .. startPos +
        count - 1 take texts 0 .. count - 1. */
    method RenameTags(texts: seq<string>, startPos: nat, count: nat)
      requires Valid() && count <= |texts| && startPos + count <= |tagViews|
      modifies tagViews`text
      ensures forall k :: 0 <= k < |tagViews| ==>
                tagViews[k].text ==
                  if startPos <= k < startPos + count then texts[k - startPos] else old(tagViews[k].text)
    {
      for i := 0 to count
        invariant forall k :: 0 <= k < |tagViews| ==>
                    tagViews[k].text ==
                      if startPos <= k < startPos + i then texts[k - startPos] else old(tagViews[k].text)
      {
        assert forall k :: 0 <= k < |tagViews| && k != i + startPos ==> tagViews[k] != tagViews[i + startPos];
        tagViews[i + startPos].text := texts[i];
      }
    }

    /** The recolouring part of updateTags: in random mode list entry k takes
        the k-th draw; otherwise no colour changes. */
    method RecolorTags(draw: nat -> ColorPair)
      requires Valid()
      modifies tagViews`bgColor, tagViews`borderColor, tagViews`feedbackColor
      ensures forall k :: 0 <= k < |tagViews| && style.randomColor ==>
                tagViews[k].borderColor == Some(draw(k).c0) &&
                (if style.pressFeedback then
                   tagViews[k].feedbackColor == Some(draw(k).c0) && tagViews[k].bgColor == old(tagViews[k].bgColor)
                 else
                   tagViews[k].bgColor == Some(draw(k).c1) && tagViews[k].feedbackColor == old(tagViews[k].feedbackColor))
      ensures forall k :: 0 <= k < |tagViews| && !style.randomColor ==>
                tagViews[k].borderColor == old(tagViews[k].borderColor) &&
                tagViews[k].bgColor == old(tagViews[k].bgColor) &&
                tagViews[k].feedbackColor == old(tagViews[k].feedbackColor)
      ensures forall k :: 0 <= k < |tagViews| ==> tagViews[k].text == old(tagViews[k].text)
    {
      if !style.randomColor {
        return;
      }
      for j := 0 to |tagViews|
        invariant forall k :: 0 <= k < j ==>
                    tagViews[k].borderColor == Some(draw(k).c0) &&
                    (if style.pressFeedback then
                       tagViews[k].feedbackColor == Some(draw(k).c0) && tagViews[k].bgColor == old(tagViews[k].bgColor)
                     else
                       tagViews[k].bgColor == Some(draw(k).c1) && tagViews[k].feedbackColor == old(tagViews[k].feedbackColor))
        invariant forall k :: j <= k < |tagViews| ==>
                    tagViews[k].bgColor == old(tagViews[k].bgColor) &&
                    tagViews[k].feedbackColor == old(tagViews[k].feedbackColor)
      {
        assert forall k :: 0 <= k < |tagViews| && k != j ==> tagViews[k] != tagViews[j];
        var tag := tagViews[j];
        var color := draw(j);
        if style.pressFeedback {
          tag.feedbackColor := Some(color.c0);
        } else {
          tag.bgColor := Some(color.c1);
        }
        tag.borderColor := Some(color.c0);
      }
    }

    /** setOnTagClickListener: stores the listener and gives it to every tag in
        the list, so tags created before the listener was set respond too. */
    method SetOnTagClickListener(listener: Listener)
      requires Valid()
      modifies this`clickListener, tagViews`clickListener
      ensures Valid() && clickListener == listener
      ensures forall k :: 0 <= k < |tagViews| ==> tagViews[k].clickListener == listener
    {
      clickListener := listener;
      for i := 0 to |tagViews|
        invariant clickListener == listener
        invariant forall k :: 0 <= k < i ==> tagViews[k].clickListener == listener
      {
        tagViews[i].clickListener := listener;
      }
    }

    // The style setters: each stores the new default and pushes it onto the
    // control tag when there is one; no other existing tag is restyled.

    method SetTagBgColor(color: int)
      requires Valid()
      modifies this`style, ControlTag()`bgColor
      ensures Valid()
      ensures style == old(style).(bgColor := color)
      ensures fitTag != null ==> fitTag.bgColor == Some(color)
      ensures forall t :: t in tagViews && t != fitTag ==> t.bgColor == old(t.bgColor)
    {
      style := style.(bgColor := color);
      if fitTag != null {
        fitTag.bgColor := Some(color);
      }
    }

    method SetTagBorderColor(color: int)
      requires Valid()
      modifies this`style, ControlTag()`borderColor
      ensures Valid()
      ensures style == old(style).(borderColor := color)
      ensures fitTag != null ==> fitTag.borderColor == Some(color)
      ensures forall t :: t in tagViews && t != fitTag ==> t.borderColor == old(t.borderColor)
    {
      style := style.(borderColor := color);
      if fitTag != null {
        fitTag.borderColor := Some(color);
      }
    }

    method SetTagTextColor(color: int)
      requires Valid()
      modifies this`style, ControlTag()`textColor
      ensures Valid()
      ensures style == old(style).(textColor := color)
      ensures fitTag != null ==> fitTag.textColor == Some(color)
      ensures forall t :: t in tagViews && t != fitTag ==> t.textColor == old(t.textColor)
    {
      style := style.(textColor := color);
      if fitTag != null {
        fitTag.textColor := Some(color);
      }
    }

    /** `width` is already in pixels: the dp conversion is not modelled. */
    method SetTagBorderWidth(width: real)
      requires Valid()
      modifies this`style, ControlTag()`borderWidth
      ensures Valid()
      ensures style == old(style).(borderWidth := width)
      ensures fitTag != null ==> fitTag.borderWidth == width
      ensures forall t :: t in tagViews && t != fitTag ==> t.borderWidth == old(t.borderWidth)
    {
      style := style.(borderWidth := width);
      if fitTag != null {
        fitTag.borderWidth := width;
      }
    }

    method SetTagTextSize(size: real)
      requires Valid()
      modifies this`style, ControlTag()`textSize
      ensures Valid()
      ensures style == old(style).(textSize := size)
      ensures fitTag != null ==> fitTag.textSize == size
      ensures forall t :: t in tagViews && t != fitTag ==> t.textSize == old(t.textSize)
    {
      style := style.(textSize := size);
      if fitTag != null {
        fitTag.textSize := size;
      }
    }

    method SetTagRadius(radius: real)
      requires Valid()
      modifies this`style, ControlTag()`radius
      ensures Valid()
      ensures style == old(style).(radius := radius)
      ensures fitTag != null ==> fitTag.radius == radius
      ensures forall t :: t in tagViews && t != fitTag ==> t.radius == old(t.radius)
    {
      style := style.(radius := radius);
      if fitTag != null {
        fitTag.radius := radius;
      }
    }

    method SetTagHorizontalPadding(padding: int)
      requires Valid()
      modifies this`style, ControlTag()`horizontalPadding
      ensures Valid()
      ensures style == old(style).(horizontalPadding := padding)
      ensures fitTag != null ==> fitTag.horizontalPadding == padding
      ensures forall t :: t in tagViews && t != fitTag ==> t.horizontalPadding == old(t.horizontalPadding)
    {
      style := style.(horizontalPadding := padding);
      if fitTag != null {
        fitTag.horizontalPadding := padding;
      }
    }

    method SetTagVerticalPadding(padding: int)
      requires Valid()
      modifies this`style, ControlTag()`verticalPadding
      ensures Valid()
      ensures style == old(style).(verticalPadding := padding)
      ensures fitTag != null ==> fitTag.verticalPadding == padding
      ensures forall t :: t in tagViews && t != fitTag ==> t.verticalPadding == old(t.verticalPadding)
    {
      style := style.(verticalPadding := padding);
      if fitTag != null {
        fitTag.verticalPadding := padding;
      }
    }

    method SetPressFeedback(pressFeedback: bool)
      requires Valid()
      modifies this`style, ControlTag()`pressFeedback
      ensures Valid()
      ensures style == old(style).(pressFeedback := pressFeedback)
      ensures fitTag != null ==> fitTag.pressFeedback == pressFeedback
      ensures forall t :: t in tagViews && t != fitTag ==> t.pressFeedback == old(t.pressFeedback)
    {
      style := style.(pressFeedback := pressFeedback);
      if fitTag != null {
        fitTag.pressFeedback := pressFeedback;
      }
    }

    method SetIconPadding(padding: int)
      requires Valid()
      modifies this`style, ControlTag()`iconPadding
      ensures Valid()
      ensures style == old(style).(iconPadding := padding)
      ensures fitTag != null ==> fitTag.iconPadding == padding
      ensures forall t :: t in tagViews && t != fitTag ==> t.iconPadding == old(t.iconPadding)
    {
      style := style.(iconPadding := padding);
      if fitTag != null {
        fitTag.iconPadding := padding;
      }
    }

    /** Unlike the setters above, setTagShape leaves even the control tag as it is. */
    method SetTagShape(shape: int)
      requires Valid()
      modifies this`style
      ensures Valid()
      ensures style == old(style).(shape := shape)
    {
      style := style.(shape := shape);
    }

    /** Affects only tags created, and updateTags calls made, afterwards. */
    method SetEnableRandomColor(enable: bool)
      requires Valid()
      modifies this`style
      ensures Valid()
      ensures style == old(style).(randomColor := enable)
    {
      style := style.(randomColor := enable);
    }
  }
}
