/**
 * HXPageTabBar.swift: the tab bar above the pages.  It lays its items out
 * in a row with an equal spacing, marks one of them selected, slides an
 * indicator under the selection and follows the paging scroll view it is
 * linked to.
 *
 * The data source is a value (`TabSource`) whose optional answers are
 * `Option`s; text measurement, a foreign call, is the function `measure`
 * of the data source.  Delegate callbacks and the offsets the tab bar asks
 * the linked scroll view to take are appended to an event log.
 */
module PageTabBar {
  import opened Wrappers
  import opened Numerics
  import opened TabBarItem
  import CV = ContentView
  import PC = PageContainer

  /** HXPageViewAutomaticDimension: "measure the title instead". */
  const AutomaticDimension: real := -1.0

  /** The spacing refreshCurrentState starts from when the data source names none. */
  const DefaultSpacing: real := 20.0
  /** The spacing a new tab bar has before its first refresh. */
  const InitialSpacing: real := 10.0
  const DefaultIndicatorHeight: real := 3.0
  const DefaultIndicatorBottom: real := 5.0

  datatype TransitionAnimation = NoAnimation | Smoothness

  /** HXPageTabBarDataSource: every optional method is an `Option`; per-index answers are sequences. */
  datatype TabSource = TabSource(
    titles: seq<string>,
    defaultSelectedIndex: Option<int>,
    itemWidths: seq<Option<real>>,
    titleFont: Option<Font>,
    titleHighlightedFont: Option<Font>,
    titleColor: Option<Color>,
    titleHighlightedColor: Option<Color>,
    spacing: Option<real>,
    relayoutWhenWidthNotEnough: Option<bool>,
    needsIndicatorView: Option<bool>,
    indicatorColor: Option<Color>,
    indicatorHeight: Option<real>,
    indicatorBottom: Option<real>,
    indicatorWidths: seq<Option<real>>,
    transition: Option<TransitionAnimation>,
    measure: (string, Font) -> real)

  // The defaults the tab bar substitutes for missing answers (HXPageTabBar.swift:238-365).

  function Count(src: Option<TabSource>): nat {
    if src.Some? then |src.value.titles| else 0
  }

  function TitleAt(src: Option<TabSource>, index: int): string {
    if src.Some? && 0 <= index < |src.value.titles| then src.value.titles[index] else ""
  }

  function TitleFontOf(src: Option<TabSource>): Font {
    if src.Some? && src.value.titleFont.Some? then src.value.titleFont.value else DefaultFont
  }

  function HighlightedFontOf(src: Option<TabSource>): Font {
    if src.Some? && src.value.titleHighlightedFont.Some? then src.value.titleHighlightedFont.value else DefaultFont
  }

  function TitleColorOf(src: Option<TabSource>): Color {
    if src.Some? && src.value.titleColor.Some? then src.value.titleColor.value else LightGray
  }

  function HighlightedColorOf(src: Option<TabSource>): Color {
    if src.Some? && src.value.titleHighlightedColor.Some? then src.value.titleHighlightedColor.value else Black
  }

  function SpacingOf(src: Option<TabSource>): real {
    if src.Some? && src.value.spacing.Some? then src.value.spacing.value else DefaultSpacing
  }

  function RelayoutOf(src: Option<TabSource>): bool {
    if src.Some? && src.value.relayoutWhenWidthNotEnough.Some? then src.value.relayoutWhenWidthNotEnough.value else true
  }

  function NeedsIndicatorOf(src: Option<TabSource>): bool {
    if src.Some? && src.value.needsIndicatorView.Some? then src.value.needsIndicatorView.value else true
  }

  function IndicatorColorOf(src: Option<TabSource>): Color {
    if src.Some? && src.value.indicatorColor.Some? then src.value.indicatorColor.value else HighlightedColorOf(src)
  }

  function IndicatorHeightOf(src: Option<TabSource>): real {
    if src.Some? && src.value.indicatorHeight.Some? then src.value.indicatorHeight.value else DefaultIndicatorHeight
  }

  function IndicatorBottomOf(src: Option<TabSource>): real {
    if src.Some? && src.value.indicatorBottom.Some? then src.value.indicatorBottom.value else DefaultIndicatorBottom
  }

  function TransitionOf(src: Option<TabSource>): TransitionAnimation {
    if src.Some? && src.value.transition.Some? then src.value.transition.value else NoAnimation
  }

  function ExplicitItemWidth(src: Option<TabSource>, index: int): Option<real> {
    if src.Some? && 0 <= index < |src.value.itemWidths| then src.value.itemWidths[index] else None
  }

  function ExplicitIndicatorWidth(src: Option<TabSource>, index: int): Option<real> {
    if src.Some? && 0 <= index < |src.value.indicatorWidths| then src.value.indicatorWidths[index] else None
  }

  /** Without a data source (or an answer) the tab bar falls back on these values. */
  lemma NoSourceDefaults()
    ensures Count(None) == 0 && TitleAt(None, 0) == ""
    ensures TitleFontOf(None) == DefaultFont && HighlightedFontOf(None) == DefaultFont
    ensures TitleColorOf(None) == LightGray && HighlightedColorOf(None) == Black
    ensures SpacingOf(None) == 20.0 && RelayoutOf(None) && NeedsIndicatorOf(None)
    ensures IndicatorColorOf(None) == HighlightedColorOf(None)
    ensures IndicatorHeightOf(None) == 3.0 && IndicatorBottomOf(None) == 5.0
    ensures TransitionOf(None) == NoAnimation
  {
  }

  /**
   * What a refresh builds without a data source: no item models, and a row
   * whose one spacing stretches to the bounds when they exceed the default
   * spacing of 20 (relayout being on by default).
   */
  lemma NoSourceRow(selected: int, boundsWidth: real, blend: FontBlend)
    ensures RestingModels(None, selected, Count(None), blend) == []
    ensures SpacingFor(None, selected, boundsWidth) == if boundsWidth > 20.0 then boundsWidth else 20.0
    ensures Extent(RestingModels(None, selected, Count(None), blend), SpacingFor(None, selected, boundsWidth))
      == SpacingFor(None, selected, boundsWidth)
  {
    NoSourceDefaults();
    assert MeasuredTotal(None, selected, 0) == 0.0;
    assert Repeated(1, 20.0) == 20.0;
  }

  /**
   * widthForItem(at:font:): an explicit width wins unless it is the
   * automatic dimension; without a data source the width is 0; otherwise
   * the title is measured in the given font or, with none given, in the
   * highlighted font for the selected item and the normal font for the rest.
   */
  function WidthForItem(src: Option<TabSource>, selected: int, index: int, font: Option<Font>): (w: real)
    ensures ExplicitItemWidth(src, index).Some? && ExplicitItemWidth(src, index).value != AutomaticDimension ==>
      w == ExplicitItemWidth(src, index).value
    ensures (ExplicitItemWidth(src, index).None? || ExplicitItemWidth(src, index).value == AutomaticDimension) ==>
      w == if src.None? then 0.0
           else if font.Some? then src.value.measure(TitleAt(src, index), font.value)
           else if selected == index then src.value.measure(TitleAt(src, index), HighlightedFontOf(src))
           else src.value.measure(TitleAt(src, index), TitleFontOf(src))
  {
    var explicit := ExplicitItemWidth(src, index);
    if explicit.Some? && explicit.value != AutomaticDimension then explicit.value
    else if src.None? then 0.0
    else if font.Some? then src.value.measure(TitleAt(src, index), font.value)
    else
      var titleFont := if selected == index then HighlightedFontOf(src) else TitleFontOf(src);
      src.value.measure(TitleAt(src, index), titleFont)
  }

  /**
   * widthForIndicatorView(at:): an explicit indicator width wins unless it is
   * the automatic dimension; otherwise the indicator is as wide as the item.
   */
  function WidthForIndicator(src: Option<TabSource>, selected: int, index: int): (w: real)
    ensures ExplicitIndicatorWidth(src, index).Some? && ExplicitIndicatorWidth(src, index).value != AutomaticDimension ==>
      w == ExplicitIndicatorWidth(src, index).value
    ensures (ExplicitIndicatorWidth(src, index).None? || ExplicitIndicatorWidth(src, index).value == AutomaticDimension) ==>
      w == WidthForItem(src, selected, index, None)
  {
    var explicit := ExplicitIndicatorWidth(src, index);
    if explicit.Some? && explicit.value != AutomaticDimension then explicit.value
    else WidthForItem(src, selected, index, None)
  }

  /** The normal and the highlighted title font share one face (descriptor), as the defaults do. */
  predicate SameFace(src: Option<TabSource>) {
    TitleFontOf(src).descriptor == HighlightedFontOf(src).descriptor
  }

  /**
   * itemModel(at:percent:): the selected item blends its highlighted font and
   * colour from the normal ones, every other item blends its normal font and
   * colour from the highlighted ones, by `percent`; the width is measured in
   * the blended font.  The tab bar builds its models with the font blend
   * `AsWritten`, as the source does; `Intended` gives the models the
   * corrected interpolationFont would give.
   */
  function ItemModelAt(src: Option<TabSource>, selected: int, index: int, percent: real, blend: FontBlend): (m: ItemModel)
    ensures m.title == TitleAt(src, index)
    ensures m.isSelected <==> index == selected
    ensures m.isSelected ==>
      && m.titleFont == TitleFontOf(src) && m.titleColor == TitleColorOf(src)
      && m.titleHighlightedFont == BlendFont(blend, TitleFontOf(src), HighlightedFontOf(src), percent)
      && m.titleHighlightedColor == InterpolationColor(TitleColorOf(src), HighlightedColorOf(src), percent)
      && m.itemWidth == WidthForItem(src, selected, index, Some(m.titleHighlightedFont))
    ensures !m.isSelected ==>
      && m.titleHighlightedFont == HighlightedFontOf(src) && m.titleHighlightedColor == HighlightedColorOf(src)
      && m.titleFont == BlendFont(blend, HighlightedFontOf(src), TitleFontOf(src), percent)
      && m.titleColor == InterpolationColor(HighlightedColorOf(src), TitleColorOf(src), percent)
      && m.itemWidth == WidthForItem(src, selected, index, Some(m.titleFont))
  {
    var title := TitleAt(src, index);
    if index != selected then
      var titleFont := BlendFont(blend, HighlightedFontOf(src), TitleFontOf(src), percent);
      var titleColor := InterpolationColor(HighlightedColorOf(src), TitleColorOf(src), percent);
      ItemModel(title, titleFont, HighlightedFontOf(src), titleColor, HighlightedColorOf(src),
                WidthForItem(src, selected, index, Some(titleFont)), false)
    else
      var highlightedFont := BlendFont(blend, TitleFontOf(src), HighlightedFontOf(src), percent);
      var highlightedColor := InterpolationColor(TitleColorOf(src), HighlightedColorOf(src), percent);
      ItemModel(title, TitleFontOf(src), highlightedFont, TitleColorOf(src), highlightedColor,
                WidthForItem(src, selected, index, Some(highlightedFont)), true)
  }

  /**
   * What the two cells of a smooth transition show (refreshItemState with
   * percent p builds both models at 1 - p).  At p = 1 they have traded: the
   * source item shows the normal font and colour, the target the
   * highlighted ones.  At p = 0 the source item shows the highlighted
   * colour and the target the normal one; with the intended blend or one
   * shared face the fonts are the highlighted and the normal font too, but
   * as written each cell keeps its other font's face at the right size.
   */
  lemma SmoothTransitionEnds(src: Option<TabSource>, selected: int, to: int, blend: FontBlend)
    requires to != selected
    ensures var from0 := ConfigItem(ItemModelAt(src, selected, selected, 1.0, blend));
      var to0 := ConfigItem(ItemModelAt(src, selected, to, 1.0, blend));
      && from0.textColor == HighlightedColorOf(src) && to0.textColor == TitleColorOf(src)
      && (blend == Intended || SameFace(src) ==> from0.font == HighlightedFontOf(src) && to0.font == TitleFontOf(src))
      && (blend == AsWritten ==>
            && from0.font == Font(TitleFontOf(src).descriptor, HighlightedFontOf(src).pointSize)
            && to0.font == Font(HighlightedFontOf(src).descriptor, TitleFontOf(src).pointSize))
    ensures var from1 := ConfigItem(ItemModelAt(src, selected, selected, 0.0, blend));
      var to1 := ConfigItem(ItemModelAt(src, selected, to, 0.0, blend));
      && from1.font == TitleFontOf(src) && from1.textColor == TitleColorOf(src)
      && to1.font == HighlightedFontOf(src) && to1.textColor == HighlightedColorOf(src)
  {
    var normal, highlighted := TitleFontOf(src), HighlightedFontOf(src);
    var from0, to0 := ItemModelAt(src, selected, selected, 1.0, blend), ItemModelAt(src, selected, to, 1.0, blend);
    assert ConfigItem(from0).font == BlendFont(blend, normal, highlighted, 1.0);
    assert ConfigItem(to0).font == BlendFont(blend, highlighted, normal, 1.0);
    var from1, to1 := ItemModelAt(src, selected, selected, 0.0, blend), ItemModelAt(src, selected, to, 0.0, blend);
    assert ConfigItem(from1).font == BlendFont(blend, normal, highlighted, 0.0);
    assert ConfigItem(to1).font == BlendFont(blend, highlighted, normal, 0.0);
  }

  /** The resting models refreshCurrentState builds for `count` items. */
  function RestingModels(src: Option<TabSource>, selected: int, count: nat, blend: FontBlend): (models: seq<ItemModel>)
    ensures |models| == count
    ensures forall i :: 0 <= i < count ==> models[i] == ItemModelAt(src, selected, i, 1.0, blend)
  {
    seq(count, i requires 0 <= i < count => ItemModelAt(src, selected, i, 1.0, blend))
  }

  /** Exactly the item at `k` is marked selected. */
  ghost predicate OnlySelected(models: seq<ItemModel>, k: int) {
    forall j :: 0 <= j < |models| ==> (models[j].isSelected <==> j == k)
  }

  lemma RestingModelsMarkSelection(src: Option<TabSource>, selected: int, count: nat, blend: FontBlend)
    ensures OnlySelected(RestingModels(src, selected, count, blend), selected)
  {
  }

  /** `n` copies of `x` added up. */
  function Repeated(n: nat, x: real): real {
    if n == 0 then 0.0 else Repeated(n - 1, x) + x
  }

  lemma {:induction false} RepeatedIsProduct(n: nat, x: real)
    ensures Repeated(n, x) == n as real * x
  {
    if n > 0 {
      RepeatedIsProduct(n - 1, x);
      assert (n - 1) as real * x + x == n as real * x;
    }
  }

  /** The width of items 0 .. n-1 as refreshCurrentState first adds them up (no font given). */
  function MeasuredTotal(src: Option<TabSource>, selected: int, n: nat): real {
    if n == 0 then 0.0 else MeasuredTotal(src, selected, n - 1) + WidthForItem(src, selected, n - 1, None)
  }

  /** Σ (w_j + spacing) over the first k items. */
  function Advance(models: seq<ItemModel>, spacing: real, k: nat): real
    requires k <= |models|
  {
    if k == 0 then 0.0 else Advance(models, spacing, k - 1) + models[k - 1].itemWidth + spacing
  }

  /** The sum of the first k item widths. */
  function WidthsTotal(models: seq<ItemModel>, k: nat): real
    requires k <= |models|
  {
    if k == 0 then 0.0 else WidthsTotal(models, k - 1) + models[k - 1].itemWidth
  }

  lemma {:induction false} AdvanceSplits(models: seq<ItemModel>, spacing: real, k: nat)
    requires k <= |models|
    ensures Advance(models, spacing, k) == WidthsTotal(models, k) + Repeated(k, spacing)
  {
    if k > 0 {
      AdvanceSplits(models, spacing, k - 1);
    }
  }

  /** The row's content width: a spacing before every item and one after the last. */
  function Extent(models: seq<ItemModel>, spacing: real): real {
    spacing + Advance(models, spacing, |models|)
  }

  /**
   * itemFrame(at:): item k sits one spacing plus the widths and spacings of
   * the items before it from the left edge, as wide as its model; an index
   * past the end sits after all items, a negative one at the first, and
   * both have width 0.
   */
  function ItemFrameOf(models: seq<ItemModel>, spacing: real, height: real, index: int): CV.Rect {
    var before := if index < 0 then 0 else if index > |models| then |models| else index;
    var width := if 0 <= index < |models| then models[index].itemWidth else 0.0;
    CV.Rect(spacing + Advance(models, spacing, before), 0.0, width, height)
  }

  /**
   * Consecutive frames are one spacing apart, so with a non-negative spacing
   * they do not overlap.
   */
  lemma FramesOneSpacingApart(models: seq<ItemModel>, spacing: real, height: real, k: int)
    requires 0 <= k && k + 1 < |models|
    ensures ItemFrameOf(models, spacing, height, k + 1).x == ItemFrameOf(models, spacing, height, k).MaxX() + spacing
    ensures spacing >= 0.0 ==> ItemFrameOf(models, spacing, height, k).MaxX() <= ItemFrameOf(models, spacing, height, k + 1).x
  {
  }

  /** The row ends one spacing after the last frame. */
  lemma LastFrameEndsRow(models: seq<ItemModel>, spacing: real, height: real)
    requires |models| > 0
    ensures ItemFrameOf(models, spacing, height, |models| - 1).MaxX() + spacing == Extent(models, spacing)
  {
  }

  /** Frame x of item k: one spacing plus, for each earlier item, its width and a spacing. */
  lemma FrameOffsetIsPrefixSum(models: seq<ItemModel>, spacing: real, height: real, k: int)
    requires 0 <= k <= |models|
    ensures ItemFrameOf(models, spacing, height, k).x == spacing + WidthsTotal(models, k) + Repeated(k, spacing)
  {
    AdvanceSplits(models, spacing, k);
  }

  /**
   * The spacing refreshCurrentState settles on: the data source's (or 20);
   * when the items and count + 1 such spacings are narrower than the bounds
   * and relayout is enabled, the bounds width left over by the items
   * shared equally among the count + 1 gaps instead.
   */
  function SpacingFor(src: Option<TabSource>, selected: int, boundsWidth: real): (spacing: real)
    ensures var n := Count(src);
      var fires := MeasuredTotal(src, selected, n) + Repeated(n + 1, SpacingOf(src)) < boundsWidth && RelayoutOf(src);
      && (fires ==> spacing * (n + 1) as real == boundsWidth - MeasuredTotal(src, selected, n))
      && (fires ==> spacing > SpacingOf(src))
      && (!fires ==> spacing == SpacingOf(src))
  {
    var n := Count(src);
    var total := MeasuredTotal(src, selected, n);
    var base := SpacingOf(src);
    if total + Repeated(n + 1, base) < boundsWidth && RelayoutOf(src) then
      var spacing := (boundsWidth - total) / (n + 1) as real;
      RepeatedIsProduct(n + 1, base);
      SpreadExceeds(boundsWidth - total, (n + 1) as real, base);
      spacing
    else
      base
  }

  /** Sharing more than m * s among m > 0 gaps gives each more than s. */
  lemma SpreadExceeds(d: real, m: real, s: real)
    requires m > 0.0 && m * s < d
    ensures d / m > s && (d / m) * m == d
  {
    assert (d / m) * m == d;
  }

  /** The measured widths and the widths of the resting models agree item by item. */
  ghost predicate MeasuresAgree(src: Option<TabSource>, selected: int, blend: FontBlend) {
    forall i :: 0 <= i < Count(src) ==> ItemModelAt(src, selected, i, 1.0, blend).itemWidth == WidthForItem(src, selected, i, None)
  }

  /**
   * At rest the models are exactly as wide as the items were measured for the
   * spacing, with the intended blend or when the two title fonts share a face.
   */
  lemma RestingWidthsAreMeasured(src: Option<TabSource>, selected: int, blend: FontBlend)
    requires blend == Intended || SameFace(src)
    ensures MeasuresAgree(src, selected, blend)
  {
    forall i | 0 <= i < Count(src)
      ensures ItemModelAt(src, selected, i, 1.0, blend).itemWidth == WidthForItem(src, selected, i, None)
    {
      var m := ItemModelAt(src, selected, i, 1.0, blend);
      if i == selected {
        assert m.titleHighlightedFont == HighlightedFontOf(src);
      } else {
        assert m.titleFont == TitleFontOf(src);
      }
    }
  }

  lemma {:induction false} AgreeingTotals(src: Option<TabSource>, selected: int, k: nat, blend: FontBlend)
    requires MeasuresAgree(src, selected, blend) && k <= Count(src)
    ensures WidthsTotal(RestingModels(src, selected, Count(src), blend), k) == MeasuredTotal(src, selected, k)
  {
    if k > 0 {
      AgreeingTotals(src, selected, k - 1, blend);
    }
  }

  /**
   * When the spacing is redistributed, the row exactly fills the bounds (the
   * items end up centred with equal gaps) provided the models are as wide as
   * the items were measured: with the intended blend always, as written when
   * the two title fonts share a face (AsWrittenRowMissesBounds shows the
   * other case).
   */
  lemma RedistributionFillsBounds(src: Option<TabSource>, selected: int, boundsWidth: real, blend: FontBlend)
    requires var n := Count(src);
      MeasuredTotal(src, selected, n) + Repeated(n + 1, SpacingOf(src)) < boundsWidth && RelayoutOf(src)
    requires blend == Intended || SameFace(src)
    ensures Extent(RestingModels(src, selected, Count(src), blend), SpacingFor(src, selected, boundsWidth)) == boundsWidth
  {
    var n := Count(src);
    var models := RestingModels(src, selected, n, blend);
    var spacing := SpacingFor(src, selected, boundsWidth);
    AdvanceSplits(models, spacing, n);
    RestingWidthsAreMeasured(src, selected, blend);
    AgreeingTotals(src, selected, n, blend);
    RepeatedIsProduct(n + 1, spacing);
    assert Repeated(n + 1, spacing) == Repeated(n, spacing) + spacing;
  }

  /**
   * One tab with a normal face 1 at size 15 and a highlighted face 2 at size
   * 20 (a thin and a bold face, as in the demo), measured as its size, or
   * twice its size in face 2.
   */
  const TwoFaces: TabSource := TabSource(["A"], None, [], Some(Font(1, 15.0)), Some(Font(2, 20.0)), None, None,
    None, None, None, None, None, None, [], None,
    (title: string, font: Font) => if font.descriptor == 2 then 2.0 * font.pointSize else font.pointSize)

  /**
   * As written, a redistributed row with two faces does not fill the bounds:
   * the spacing is shared out for the title measured in the highlighted face
   * (width 40), but the resting model measures it in the normal face at the
   * highlighted size (width 20).  The intended blend fills the 200 points.
   */
  lemma AsWrittenRowMissesBounds()
    ensures SpacingFor(Some(TwoFaces), 0, 200.0) == 80.0
    ensures Extent(RestingModels(Some(TwoFaces), 0, 1, AsWritten), 80.0) == 180.0
    ensures Extent(RestingModels(Some(TwoFaces), 0, 1, Intended), 80.0) == 200.0
  {
    var src := Some(TwoFaces);
    var thin, bold := Font(1, 15.0), Font(2, 20.0);
    assert TitleFontOf(src) == thin && HighlightedFontOf(src) == bold && SpacingOf(src) == 20.0 && RelayoutOf(src);
    assert TitleAt(src, 0) == "A" && ExplicitItemWidth(src, 0) == None;
    assert TwoFaces.measure("A", bold) == 40.0;
    assert WidthForItem(src, 0, 0, None) == 40.0;
    assert MeasuredTotal(src, 0, 1) == 40.0;
    assert Repeated(2, 20.0) == 40.0;
    var asWritten := BlendFont(AsWritten, thin, bold, 1.0);
    assert asWritten == Font(1, 20.0);
    assert TwoFaces.measure("A", asWritten) == 20.0;
    var shown := RestingModels(src, 0, 1, AsWritten);
    assert shown[0].itemWidth == 20.0;
    assert Advance(shown, 80.0, 1) == Advance(shown, 80.0, 0) + 20.0 + 80.0;
    assert BlendFont(Intended, thin, bold, 1.0) == bold;
    var intended := RestingModels(src, 0, 1, Intended);
    assert intended[0].itemWidth == 40.0;
    assert Advance(intended, 80.0, 1) == Advance(intended, 80.0, 0) + 40.0 + 80.0;
  }

  lemma {:induction false} AdvanceOfExtension(models: seq<ItemModel>, m: ItemModel, spacing: real, k: nat)
    requires k <= |models|
    ensures Advance(models + [m], spacing, k) == Advance(models, spacing, k)
  {
    if k > 0 {
      AdvanceOfExtension(models, m, spacing, k - 1);
      assert (models + [m])[k - 1] == models[k - 1];
    }
  }

  /** refreshCurrentState's scroll position for the row: the selected frame centred, kept inside the row. */
  function CenteringOffset(frame: CV.Rect, boundsWidth: real, totalWidth: real): (x: real)
    ensures x >= 0.0
    ensures totalWidth - boundsWidth >= 0.0 ==> x <= totalWidth - boundsWidth
    ensures 0.0 <= frame.MidX() - boundsWidth / 2.0 <= totalWidth - boundsWidth ==> x + boundsWidth / 2.0 == frame.MidX()
  {
    var targetX := frame.x - boundsWidth / 2.0 + frame.width / 2.0;
    Max(Min(totalWidth - boundsWidth, targetX), 0.0)
  }

  /** The indicator view: its centre, size and colour. */
  datatype Indicator = Indicator(centerX: real, centerY: real, width: real, height: real, color: Color)

  /**
   * The indicator refreshCurrentState puts under the selected frame: centred
   * on it, as wide as the indicator width of the selected item, its bottom
   * edge `bottom` above the bar's bottom.
   */
  function IndicatorUnder(src: Option<TabSource>, selected: int, frame: CV.Rect, boundsHeight: real): (ind: Indicator)
    ensures ind.centerX == frame.MidX() && ind.width == WidthForIndicator(src, selected, selected)
    ensures ind.height == IndicatorHeightOf(src) && ind.color == IndicatorColorOf(src)
    ensures ind.centerY + ind.height / 2.0 == boundsHeight - IndicatorBottomOf(src)
  {
    var height := IndicatorHeightOf(src);
    Indicator(frame.MidX(), boundsHeight - height / 2.0 - IndicatorBottomOf(src), WidthForIndicator(src, selected, selected), height, IndicatorColorOf(src))
  }

  /**
   * refreshItemState's indicator: while dragging from one item to another it
   * moves its centre and width the fraction `percent` of the way between
   * those of the two items, as long as both cells are on screen.
   */
  function IndicatorSliding(ind: Option<Indicator>, fromFrame: CV.Rect, toFrame: CV.Rect, fromWidth: real, toWidth: real, percent: real): (r: Option<Indicator>)
    ensures ind.None? <==> r.None?
    ensures r.Some? ==> Min(fromFrame.MidX(), toFrame.MidX()) <= r.value.centerX <= Max(fromFrame.MidX(), toFrame.MidX())
    ensures r.Some? ==> Min(fromWidth, toWidth) <= r.value.width <= Max(fromWidth, toWidth)
    ensures r.Some? && percent <= 0.0 ==> r.value.centerX == fromFrame.MidX() && r.value.width == fromWidth
    ensures r.Some? && percent >= 1.0 ==> r.value.centerX == toFrame.MidX() && r.value.width == toWidth
    ensures r.Some? ==> r.value.centerY == ind.value.centerY && r.value.height == ind.value.height && r.value.color == ind.value.color
  {
    if ind.None? then None
    else Some(ind.value.(centerX := Lerp(fromFrame.MidX(), toFrame.MidX(), percent), width := Lerp(fromWidth, toWidth, percent)))
  }

  /** A slide that has come all the way onto the selected item leaves the indicator where a refresh puts it. */
  lemma SlideEndsUnderSelection(src: Option<TabSource>, selected: int, ind: Indicator, fromFrame: CV.Rect, toFrame: CV.Rect, fromWidth: real, boundsHeight: real)
    requires ind.centerY == IndicatorUnder(src, selected, toFrame, boundsHeight).centerY
    requires ind.height == IndicatorHeightOf(src) && ind.color == IndicatorColorOf(src)
    ensures IndicatorSliding(Some(ind), fromFrame, toFrame, fromWidth, WidthForIndicator(src, selected, selected), 1.0)
      == Some(IndicatorUnder(src, selected, toFrame, boundsHeight))
  {
  }

  /** selectedItem(at:...)'s update of the models: the old selection unmarked, the new one marked. */
  function Reselect(models: seq<ItemModel>, last: int, index: int): (r: seq<ItemModel>)
    requires 0 <= last < |models| && 0 <= index < |models| && last != index
    ensures |r| == |models|
    ensures r[last] == models[last].(isSelected := false) && r[index] == models[index].(isSelected := true)
    ensures forall j :: 0 <= j < |models| && j != last && j != index ==> r[j] == models[j]
  {
    models[last := models[last].(isSelected := false)][index := models[index].(isSelected := true)]
  }

  /** Moving the selection keeps exactly one item marked, now the new one. */
  lemma ReselectMovesMark(models: seq<ItemModel>, last: int, index: int)
    requires 0 <= last < |models| && 0 <= index < |models| && last != index
    requires OnlySelected(models, last)
    ensures OnlySelected(Reselect(models, last, index), index)
  {
  }

  /** Delegate callbacks and the offsets the tab bar asks the linked scroll view to take. */
  datatype Event =
    | DidSelectItem(index: int)
    | DidScrollItem(fromIndex: int, toIndex: int, percent: real)
    | ContentOffsetRequested(x: real, animated: bool)

  /**
   * What a real selection reports: with `flag` and a linked scroll view, the
   * request to scroll it (animated) to the page's offset, then didSelectedItemAt.
   */
  function SelectionEvents(content: Option<CV.ScrollView>, flag: bool, index: int): seq<Event> {
    (if flag && content.Some? then [ContentOffsetRequested(CV.PageOffset(index, content.value.width), true)] else [])
      + [DidSelectItem(index)]
  }

  function SelectCount(events: seq<Event>): nat {
    if events == [] then 0
    else SelectCount(events[..|events| - 1]) + (if events[|events| - 1].DidSelectItem? then 1 else 0)
  }

  /**
   * A real selection reports didSelectedItemAt exactly once, last, for the
   * new index, and moves the linked view exactly when asked to.
   */
  lemma SelectionReportedOnce(content: Option<CV.ScrollView>, flag: bool, index: int)
    ensures var es := SelectionEvents(content, flag, index);
      && SelectCount(es) == 1 && es[|es| - 1] == DidSelectItem(index)
      && (exists e :: e in es && e.ContentOffsetRequested?) == (flag && content.Some?)
  {
    var es := SelectionEvents(content, flag, index);
    var request := if flag && content.Some? then [ContentOffsetRequested(CV.PageOffset(index, content.value.width), true)] else [];
    assert es[..|es| - 1] == request;
    if flag && content.Some? {
      assert request[..0] == [];
      assert SelectCount(request) == 0;
      assert es[0] == request[0];
    }
    assert SelectCount(es) == SelectCount(request) + 1;
  }

  /** The report the delegate hears for one tick of a drag: didScrollItem(from, to, percent). */
  datatype Report = Report(fromIndex: int, toIndex: int, percent: real)

  /**
   * contentSrollViewDidChanged(contentOffset:)'s decision: nothing, or a tick
   * that may select an item (through selectedItem, which may itself do
   * nothing) and may report the progress of the drag.
   */
  datatype Reaction = Skip | Tick(selection: Option<int>, report: Option<Report>)

  /** The selection after selectedItem(at: index): moved when index is an existing item. */
  function SelectionAfter(selected: int, index: int, count: int): int {
    if 0 <= index < count && index != selected then index else selected
  }

  /**
   * The item a tick selects, or -1 for none: the page under the offset when
   * it lies exactly on a page (unless ignored), the page reached by a flick
   * past the neighbour, nothing otherwise.
   */
  function TickTarget(ratio: real, current: int, remainder: real, ignore: bool, selected: int): int {
    if remainder == 0.0 then (if ignore then -1 else current)
    else if Abs(ratio - selected as real) > 1.0 then (if ratio < selected as real then current + 1 else current)
    else -1
  }

  /** The progress reported from the selection: towards the next page, or back onto the page under the offset. */
  function TickReport(selected: int, current: int, remainder: real): Report {
    if selected == current then Report(selected, current + 1, remainder)
    else Report(selected, current, 1.0 - remainder)
  }

  /**
   * The decision contentSrollViewDidChanged makes for the new offset x of the
   * linked view `page`, with `count` items, the current selection and the
   * previous offset: the out-of-range and resting-at-an-edge cases are
   * skipped; a whole page commits (unless the tick repeats the last one), a
   * flick past the neighbour commits the page it reached; then the drag is
   * reported from the selection towards the page under or after the offset.
   */
  function Observe(count: int, page: CV.ScrollView, selected: int, lastX: real, x: real): (r: Reaction)
    ensures var ratio := x / page.width;
      var maxX := page.contentWidth - page.width;
      r.Skip? <==> (ratio > (count - 1) as real || ratio < 0.0
        || (x == 0.0 && selected == 0 && lastX == 0.0)
        || (x == maxX && selected == count - 1 && lastX == maxX))
  {
    var ratio := x / page.width;
    var maxX := page.contentWidth - page.width;
    if ratio > (count - 1) as real || ratio < 0.0 then Skip
    else if x == 0.0 && selected == 0 && lastX == 0.0 then Skip
    else if x == maxX && selected == count - 1 && lastX == maxX then Skip
    else
      var current := CV.TruncateToInt(ratio);
      var remainder := ratio - current as real;
      var ignore := lastX == x && selected == current;
      var target := TickTarget(ratio, current, remainder, ignore, selected);
      var selection := if target < 0 then None else Some(target);
      var after := if selection.Some? then SelectionAfter(selected, selection.value, count) else selected;
      var report := if ignore then None else Some(TickReport(after, current, remainder));
      Tick(selection, report)
  }

  /**
   * The page a tick selects exists; a tick that repeats the last offset on
   * the selected page reports nothing; a reported percent lies in [0, 1):
   * from the page under the offset towards the next by the remainder, or
   * from elsewhere back onto the page under the offset.
   */
  lemma ObserveTick(count: int, page: CV.ScrollView, selected: int, lastX: real, x: real)
    requires Observe(count, page, selected, lastX, x).Tick?
    ensures var r := Observe(count, page, selected, lastX, x);
      var ratio := x / page.width;
      var current := CV.TruncateToInt(ratio);
      && 0 <= current < count
      && (r.selection.Some? ==> 0 <= r.selection.value < count)
      && (r.report.None? <==> lastX == x && selected == current)
      && (r.report.Some? ==> 0.0 <= r.report.value.percent < 1.0)
      && (r.report.Some? && r.report.value.fromIndex == current ==>
            r.report.value.toIndex == current + 1 && r.report.value.percent == ratio - current as real)
      && (r.report.Some? && r.report.value.fromIndex != current ==>
            r.report.value.toIndex == current && r.report.value.percent == 1.0 - (ratio - current as real))
  {
  }

  /** A tick landing exactly on a page commits that page, unless it repeats the last one. */
  lemma ObserveCommitsWholePage(count: int, page: CV.ScrollView, selected: int, lastX: real, x: real)
    requires Observe(count, page, selected, lastX, x).Tick?
    requires var ratio := x / page.width; ratio == CV.TruncateToInt(ratio) as real
    requires !(lastX == x && selected == CV.TruncateToInt(x / page.width))
    ensures var current := CV.TruncateToInt(x / page.width);
      Observe(count, page, selected, lastX, x) == Tick(Some(current), Some(Report(current, current + 1, 0.0)))
  {
  }

  /**
   * A flick that leaves the offset more than a page away from the selection
   * without landing on a page commits the page it reached: the one under the
   * offset when moving forward, the next one when moving back.
   */
  lemma ObserveFlickCommits(count: int, page: CV.ScrollView, selected: int, lastX: real, x: real)
    requires Observe(count, page, selected, lastX, x).Tick?
    requires var ratio := x / page.width; ratio != CV.TruncateToInt(ratio) as real
    requires Abs(x / page.width - selected as real) > 1.0
    ensures var ratio := x / page.width;
      var current := CV.TruncateToInt(ratio);
      Observe(count, page, selected, lastX, x).selection == Some(if ratio < selected as real then current + 1 else current)
  {
  }

  /** Coming to rest on page k of the linked view selects tab k (a round trip through the page offset). */
  lemma RestingOnPageSelectsTab(count: int, page: CV.ScrollView, selected: int, lastX: real, k: int)
    requires 0 <= k < count
    requires Observe(count, page, selected, lastX, CV.PageOffset(k, page.width)).Tick?
    requires lastX != CV.PageOffset(k, page.width)
    ensures Observe(count, page, selected, lastX, CV.PageOffset(k, page.width)) == Tick(Some(k), Some(Report(k, k + 1, 0.0)))
  {
    CV.PageOffsetRatio(k, page.width);
    ObserveCommitsWholePage(count, page, selected, lastX, CV.PageOffset(k, page.width));
  }

  /** The indicator moved under `frame` and resized to `width`, when there is one. */
  function Reindicated(ind: Option<Indicator>, frame: CV.Rect, width: real): (r: Option<Indicator>)
    ensures r.None? <==> ind.None?
    ensures r.Some? ==> r.value == ind.value.(centerX := frame.MidX(), width := width)
  {
    if ind.None? then None else Some(ind.value.(centerX := frame.MidX(), width := width))
  }

  /**
   * HXPageTabBar's stored state.  `content` is the linked scroll view
   * (contentScrollView) as far as the tab bar reads it: its bounds width
   * and content width.  The collection view is reduced to its content width
   * and horizontal offset.
   */
  class TabBar {
    var source: Option<TabSource>
    var content: Option<CV.ScrollView>
    var boundsWidth: real
    var boundsHeight: real
    var selectedIndex: int
    var itemModels: seq<ItemModel>
    var itemSpacing: real
    var lastContentOffsetX: real
    var indicator: Option<Indicator>
    var collectionContentWidth: real
    var collectionOffsetX: real
    var events: seq<Event>

    /** init(frame:): nothing is laid out until the first refresh. */
    constructor(width: real, height: real)
      ensures source.None? && content.None? && boundsWidth == width && boundsHeight == height
      ensures selectedIndex == 0 && itemModels == [] && itemSpacing == InitialSpacing && lastContentOffsetX == 0.0
      ensures indicator.None? && collectionContentWidth == 0.0 && collectionOffsetX == 0.0 && events == []
    {
      source := None;
      content := None;
      boundsWidth := width;
      boundsHeight := height;
      selectedIndex := 0;
      itemModels := [];
      itemSpacing := InitialSpacing;
      lastContentOffsetX := 0.0;
      indicator := None;
      collectionContentWidth := 0.0;
      collectionOffsetX := 0.0;
      events := [];
    }

    /** itemFrame(at:): walks the models, adding up the widths and spacings before `index`. */
    method ItemFrame(index: int) returns (r: CV.Rect)
      ensures r == ItemFrameOf(itemModels, itemSpacing, boundsHeight, index)
    {
      var itemX := itemSpacing;
      var itemWidth := 0.0;
      for i := 0 to |itemModels|
        invariant itemX == itemSpacing + Advance(itemModels, itemSpacing, if index < 0 then 0 else if index < i then index else i)
        invariant itemWidth == if 0 <= index < i then itemModels[index].itemWidth else 0.0
      {
        var model := itemModels[i];
        if i < index {
          itemX := itemX + model.itemWidth + itemSpacing;
        } else if i == index {
          itemWidth := model.itemWidth;
        }
      }
      return CV.Rect(itemX, 0.0, itemWidth, boundsHeight);
    }

    /** The first half of refreshCurrentState: the spacing, redistributed when the items leave room. */
    method ComputeItemSpacing()
      modifies this`itemSpacing
      ensures itemSpacing == SpacingFor(source, selectedIndex, boundsWidth)
    {
      var itemCount := Count(source);
      itemSpacing := DefaultSpacing;
      if source.Some? && source.value.spacing.Some? {
        itemSpacing := source.value.spacing.value;
      }
      var totalItemWidth := 0.0;
      var totalSpacingWidth := itemSpacing;
      for i := 0 to itemCount
        invariant totalItemWidth == MeasuredTotal(source, selectedIndex, i)
        invariant totalSpacingWidth == Repeated(i + 1, itemSpacing)
      {
        totalItemWidth := totalItemWidth + WidthForItem(source, selectedIndex, i, None);
        totalSpacingWidth := totalSpacingWidth + itemSpacing;
      }
      if totalItemWidth + totalSpacingWidth < boundsWidth && RelayoutOf(source) {
        itemSpacing := (boundsWidth - totalItemWidth) / (itemCount + 1) as real;
      }
    }

    /** The models are rebuilt at rest (percent 1); the row's width is added up on the way. */
    method RebuildItemModels() returns (totalWidth: real)
      modifies this`itemModels
      ensures itemModels == RestingModels(source, selectedIndex, Count(source), AsWritten)
      ensures totalWidth == Extent(itemModels, itemSpacing)
    {
      itemModels := [];
      totalWidth := itemSpacing;
      for i := 0 to Count(source)
        invariant |itemModels| == i
        invariant forall j :: 0 <= j < i ==> itemModels[j] == ItemModelAt(source, selectedIndex, j, 1.0, AsWritten)
        invariant totalWidth == itemSpacing + Advance(itemModels, itemSpacing, i)
      {
        var model := ItemModelAt(source, selectedIndex, i, 1.0, AsWritten);
        AdvanceOfExtension(itemModels, model, itemSpacing, i);
        itemModels := itemModels + [model];
        totalWidth := totalWidth + model.itemWidth + itemSpacing;
      }
    }

    /** What refreshCurrentState does once the row is built. */
    twostate predicate SelectionLaidOut()
      reads this
    {
      var frame := ItemFrameOf(itemModels, itemSpacing, boundsHeight, selectedIndex);
      && collectionContentWidth == Extent(itemModels, itemSpacing)
      && collectionOffsetX == CenteringOffset(frame, boundsWidth, collectionContentWidth)
      && indicator == (if NeedsIndicatorOf(source) then Some(IndicatorUnder(source, selectedIndex, frame, boundsHeight)) else old(indicator))
      && events == old(events) + (if content.Some? then [ContentOffsetRequested(CV.PageOffset(selectedIndex, content.value.width), false)] else [])
    }

    /**
     * The second half of refreshCurrentState: the indicator under the
     * selected item, the row scrolled to centre it, and the linked view
     * asked (without animation) to show the selected page.
     */
    method LayoutSelection(totalWidth: real)
      requires totalWidth == Extent(itemModels, itemSpacing)
      modifies this`indicator, this`collectionContentWidth, this`collectionOffsetX, this`events
      ensures SelectionLaidOut()
    {
      var selectedItemFrame := ItemFrame(selectedIndex);
      if NeedsIndicatorOf(source) {
        indicator := Some(IndicatorUnder(source, selectedIndex, selectedItemFrame, boundsHeight));
      }
      collectionContentWidth := totalWidth;
      collectionOffsetX := CenteringOffset(selectedItemFrame, boundsWidth, totalWidth);
      if content.Some? {
        events := events + [ContentOffsetRequested(CV.PageOffset(selectedIndex, content.value.width), false)];
      }
    }

    /**
     * refreshCurrentState.  A redistributed row fills the bounds when the two
     * title fonts share a face; with two faces it need not
     * (AsWrittenRowMissesBounds).
     */
    method RefreshCurrentState()
      modifies this`itemSpacing, this`itemModels, this`indicator, this`collectionContentWidth, this`collectionOffsetX, this`events
      ensures itemSpacing == SpacingFor(source, selectedIndex, boundsWidth)
      ensures itemModels == RestingModels(source, selectedIndex, Count(source), AsWritten)
      ensures SelectionLaidOut()
      ensures OnlySelected(itemModels, selectedIndex)
      ensures var n := Count(source);
        SameFace(source) && RelayoutOf(source) && MeasuredTotal(source, selectedIndex, n) + Repeated(n + 1, SpacingOf(source)) < boundsWidth ==>
          collectionContentWidth == boundsWidth
    {
      RestingModelsMarkSelection(source, selectedIndex, Count(source), AsWritten);
      ghost var n := Count(source);
      if SameFace(source) && RelayoutOf(source) && MeasuredTotal(source, selectedIndex, n) + Repeated(n + 1, SpacingOf(source)) < boundsWidth {
        RedistributionFillsBounds(source, selectedIndex, boundsWidth, AsWritten);
      }
      ComputeItemSpacing();
      var totalWidth := RebuildItemModels();
      LayoutSelection(totalWidth);
    }

    /** The dataSource setter: a default index, clamped into the items, becomes the selection; then a refresh. */
    method SetDataSource(src: Option<TabSource>)
      modifies this`source, this`selectedIndex
      modifies this`itemSpacing, this`itemModels, this`indicator, this`collectionContentWidth, this`collectionOffsetX, this`events
      ensures source == src
      ensures selectedIndex == if src.Some? && src.value.defaultSelectedIndex.Some?
        then PC.ClampDefault(src.value.defaultSelectedIndex.value, Count(src)) else old(selectedIndex)
      ensures itemSpacing == SpacingFor(source, selectedIndex, boundsWidth)
      ensures itemModels == RestingModels(source, selectedIndex, Count(source), AsWritten)
      ensures SelectionLaidOut()
      ensures OnlySelected(itemModels, selectedIndex)
    {
      source := src;
      if src.Some? && src.value.defaultSelectedIndex.Some? {
        selectedIndex := PC.ClampDefault(src.value.defaultSelectedIndex.value, Count(src));
      }
      RefreshCurrentState();
    }

    /** reloadData. */
    method ReloadData()
      modifies this`itemSpacing, this`itemModels, this`indicator, this`collectionContentWidth, this`collectionOffsetX, this`events
      ensures itemSpacing == SpacingFor(source, selectedIndex, boundsWidth)
      ensures itemModels == RestingModels(source, selectedIndex, Count(source), AsWritten)
      ensures SelectionLaidOut()
      ensures OnlySelected(itemModels, selectedIndex)
    {
      RefreshCurrentState();
    }

    /** layoutSubviews: the new bounds, then a refresh. */
    method LayoutSubviews(width: real, height: real)
      modifies this`boundsWidth, this`boundsHeight
      modifies this`itemSpacing, this`itemModels, this`indicator, this`collectionContentWidth, this`collectionOffsetX, this`events
      ensures boundsWidth == width && boundsHeight == height
      ensures itemSpacing == SpacingFor(source, selectedIndex, boundsWidth)
      ensures itemModels == RestingModels(source, selectedIndex, Count(source), AsWritten)
      ensures SelectionLaidOut()
      ensures OnlySelected(itemModels, selectedIndex)
    {
      boundsWidth := width;
      boundsHeight := height;
      RefreshCurrentState();
    }

    /** The contentScrollView setter; registering the offset observer is not modelled. */
    method SetContentScrollView(view: Option<CV.ScrollView>)
      modifies this`content
      ensures content == view
    {
      content := view;
    }

    /** The effect of selectedItem(at:shouldHandleContentScrollView:), real or not. */
    twostate predicate SelectedItemEffect(index: int, flag: bool)
      reads this
    {
      if 0 <= index < Count(source) && index != old(selectedIndex) then
        && 0 <= old(selectedIndex) < |old(itemModels)| && index < |old(itemModels)|
        && selectedIndex == index
        && itemModels == Reselect(old(itemModels), old(selectedIndex), index)
        && indicator == Reindicated(old(indicator), ItemFrameOf(itemModels, itemSpacing, boundsHeight, index), WidthForIndicator(source, index, index))
        && events == old(events) + SelectionEvents(content, flag, index)
      else
        selectedIndex == old(selectedIndex) && itemModels == old(itemModels) && indicator == old(indicator) && events == old(events)
    }

    /**
     * selectedItem(at:shouldHandleContentScrollView:): nothing happens for an
     * index outside the items or equal to the selection; otherwise the
     * selection moves, the two models trade their mark, the indicator slides
     * under the new item, the linked view is asked to follow when `flag`
     * says so, and the delegate hears didSelectedItemAt once.
     */
    method SelectedItem(index: int, flag: bool)
      requires 0 <= index < Count(source) && index != selectedIndex ==> 0 <= selectedIndex < |itemModels| && index < |itemModels|
      modifies this`selectedIndex, this`itemModels, this`indicator, this`events
      ensures SelectedItemEffect(index, flag)
      ensures old(OnlySelected(itemModels, selectedIndex)) ==> OnlySelected(itemModels, selectedIndex)
    {
      var itemCount: int := Count(source);
      if index > itemCount - 1 || index < 0 {
        return;
      }
      if selectedIndex == index {
        return;
      }
      var lastIndex := selectedIndex;
      selectedIndex := index;
      var lastModel := itemModels[lastIndex].(isSelected := false);
      var selectedModel := itemModels[selectedIndex].(isSelected := true);
      itemModels := itemModels[lastIndex := lastModel];
      itemModels := itemModels[selectedIndex := selectedModel];
      if indicator.Some? {
        var selectedItemFrame := ItemFrame(selectedIndex);
        var indicatorWidth := WidthForIndicator(source, selectedIndex, selectedIndex);
        indicator := Reindicated(indicator, selectedItemFrame, indicatorWidth);
      }
      if content.Some? && flag {
        events := events + [ContentOffsetRequested(CV.PageOffset(selectedIndex, content.value.width), true)];
      }
      events := events + [DidSelectItem(selectedIndex)];
      if old(OnlySelected(itemModels, selectedIndex)) {
        ReselectMovesMark(old(itemModels), lastIndex, index);
      }
    }

    /** collectionView(_:didSelectItemAt:): a tap selects the item and moves the linked view along. */
    method TapItem(index: int)
      requires 0 <= index < Count(source) && index != selectedIndex ==> 0 <= selectedIndex < |itemModels| && index < |itemModels|
      modifies this`selectedIndex, this`itemModels, this`indicator, this`events
      ensures SelectedItemEffect(index, true)
    {
      SelectedItem(index, true);
    }

    /** setSelectedIndex(_:shouldHandleContentScrollView:). */
    method SetSelectedIndex(index: int, flag: bool)
      requires 0 <= index < Count(source) && index != selectedIndex ==> 0 <= selectedIndex < |itemModels| && index < |itemModels|
      modifies this`selectedIndex, this`itemModels, this`indicator, this`events
      ensures SelectedItemEffect(index, flag)
    {
      SelectedItem(index, flag);
    }

    /** The indicator `ind` slid between items fromIndex and toIndex, when both cells are on screen. */
    function Slid(ind: Option<Indicator>, fromIndex: int, toIndex: int, percent: real, cellsOnScreen: bool): Option<Indicator>
      reads this
    {
      if 0 <= fromIndex < |itemModels| && 0 <= toIndex < |itemModels| && cellsOnScreen then
        IndicatorSliding(ind,
          ItemFrameOf(itemModels, itemSpacing, boundsHeight, fromIndex), ItemFrameOf(itemModels, itemSpacing, boundsHeight, toIndex),
          WidthForIndicator(source, selectedIndex, fromIndex), WidthForIndicator(source, selectedIndex, toIndex), percent)
      else ind
    }

    /**
     * refreshItemState(fromIndex:toIndex:percent:): when both cells are on
     * screen the indicator slides between the two items.  The smooth
     * transition only re-renders the two cells.
     */
    method RefreshItemState(fromIndex: int, toIndex: int, percent: real, cellsOnScreen: bool)
      modifies this`indicator
      ensures indicator == Slid(old(indicator), fromIndex, toIndex, percent, cellsOnScreen)
    {
      if !(0 <= fromIndex < |itemModels| && 0 <= toIndex < |itemModels| && cellsOnScreen) {
        return;
      }
      if indicator.Some? {
        var fromItemFrame := ItemFrame(fromIndex);
        var toItemFrame := ItemFrame(toIndex);
        var fromWidth := WidthForIndicator(source, selectedIndex, fromIndex);
        var toWidth := WidthForIndicator(source, selectedIndex, toIndex);
        indicator := IndicatorSliding(indicator, fromItemFrame, toItemFrame, fromWidth, toWidth, percent);
      }
    }

    /**
     * The effect of one tick of contentSrollViewDidChanged for the new offset
     * `x`: what Observe decides, carried out through selectedItem (without
     * moving the linked view) and refreshItemState, with didScrollItem
     * reported last.
     */
    twostate predicate ScrollTickEffect(x: real, cellsOnScreen: bool)
      reads this
    {
      var count := Count(source);
      var r := if old(content).None? then Skip else Observe(count, old(content).value, old(selectedIndex), old(lastContentOffsetX), x);
      if r.Skip? then
        selectedIndex == old(selectedIndex) && itemModels == old(itemModels) && indicator == old(indicator) && events == old(events)
      else
        var target := if r.selection.Some? then r.selection.value else -1;
        var moved := 0 <= target < count && target != old(selectedIndex);
        var shown := if moved then Reindicated(old(indicator), ItemFrameOf(itemModels, itemSpacing, boundsHeight, target), WidthForIndicator(source, target, target))
          else old(indicator);
        var reported := if r.report.Some? then [DidScrollItem(r.report.value.fromIndex, r.report.value.toIndex, r.report.value.percent)] else [];
        && selectedIndex == (if moved then target else old(selectedIndex))
        && (moved ==> 0 <= old(selectedIndex) < |old(itemModels)| && target < |old(itemModels)|)
        && itemModels == (if moved then Reselect(old(itemModels), old(selectedIndex), target) else old(itemModels))
        && (r.report.Some? ==> r.report.value.fromIndex == selectedIndex)
        && indicator == (if r.report.Some?
          then Slid(shown, r.report.value.fromIndex, r.report.value.toIndex, r.report.value.percent, cellsOnScreen)
          else shown)
        && events == old(events) + (if moved then [DidSelectItem(target)] else []) + reported
    }

    /**
     * contentSrollViewDidChanged(contentOffset:).  `cellsOnScreen` says whether
     * the collection view has cells for the two items refreshItemState moves
     * between.  The source indexes the item models when the tick selects an
     * item, which requires the old selection to be one of them.
     */
    method ContentScrollViewDidChange(x: real, cellsOnScreen: bool)
      requires content.Some? ==>
        var r := Observe(Count(source), content.value, selectedIndex, lastContentOffsetX, x);
        r.Tick? && r.selection.Some? && 0 <= r.selection.value < Count(source) && r.selection.value != selectedIndex ==>
          0 <= selectedIndex < |itemModels| && r.selection.value < |itemModels|
      modifies this`selectedIndex, this`itemModels, this`indicator, this`events
      ensures ScrollTickEffect(x, cellsOnScreen)
    {
      if content.None? {
        return;
      }
      var page := content.value;
      var itemCount: int := Count(source);
      ghost var r := Observe(itemCount, page, selectedIndex, lastContentOffsetX, x);
      var ratio := x / page.width;
      if ratio > (itemCount - 1) as real || ratio < 0.0 {
        assert r.Skip?;
        return;
      }
      if x == 0.0 && selectedIndex == 0 && lastContentOffsetX == 0.0 {
        assert r.Skip?;
        return;
      }
      var maxContentOffsetX := page.contentWidth - page.width;
      if x == maxContentOffsetX && selectedIndex == itemCount - 1 && lastContentOffsetX == maxContentOffsetX {
        assert r.Skip?;
        return;
      }
      var currentIndex := CV.TruncateToInt(ratio);
      var remainderRatio := ratio - currentIndex as real;
      var isIgnoreScroll := lastContentOffsetX == x && selectedIndex == currentIndex;
      ghost var t := TickTarget(ratio, currentIndex, remainderRatio, isIgnoreScroll, selectedIndex);
      ghost var after := if t < 0 then selectedIndex else SelectionAfter(selectedIndex, t, itemCount);
      assert r == Tick(if t < 0 then None else Some(t),
        if isIgnoreScroll then None else Some(TickReport(after, currentIndex, remainderRatio)));
      SelectOnTick(ratio, currentIndex, remainderRatio, isIgnoreScroll);
      assert selectedIndex == after;
      ghost var moved := 0 <= t < itemCount && t != old(selectedIndex);
      assert events == old(events) + (if moved then [DidSelectItem(t)] else []);
      assert indicator == if moved then Reindicated(old(indicator), ItemFrameOf(itemModels, itemSpacing, boundsHeight, t), WidthForIndicator(source, t, t))
        else old(indicator);
      ReportOnTick(currentIndex, remainderRatio, isIgnoreScroll, cellsOnScreen);
    }

    /** The selection step of contentSrollViewDidChanged. */
    method SelectOnTick(ratio: real, currentIndex: int, remainderRatio: real, isIgnoreScroll: bool)
      requires var t := TickTarget(ratio, currentIndex, remainderRatio, isIgnoreScroll, selectedIndex);
        0 <= t < Count(source) && t != selectedIndex ==> 0 <= selectedIndex < |itemModels| && t < |itemModels|
      modifies this`selectedIndex, this`itemModels, this`indicator, this`events
      ensures SelectedItemEffect(TickTarget(ratio, currentIndex, remainderRatio, isIgnoreScroll, old(selectedIndex)), false)
    {
      if remainderRatio == 0.0 {
        if !isIgnoreScroll {
          SelectedItem(currentIndex, false);
        }
      } else {
        if Abs(ratio - selectedIndex as real) > 1.0 {
          var targetIndex := currentIndex;
          if ratio < selectedIndex as real {
            targetIndex := targetIndex + 1;
          }
          SelectedItem(targetIndex, false);
        }
      }
    }

    /** The reporting step of contentSrollViewDidChanged: the indicator slides and didScrollItem is reported. */
    method ReportOnTick(currentIndex: int, remainderRatio: real, isIgnoreScroll: bool, cellsOnScreen: bool)
      modifies this`indicator, this`events
      ensures isIgnoreScroll ==> indicator == old(indicator) && events == old(events)
      ensures !isIgnoreScroll ==> var rep := TickReport(selectedIndex, currentIndex, remainderRatio);
        && indicator == Slid(old(indicator), rep.fromIndex, rep.toIndex, rep.percent, cellsOnScreen)
        && events == old(events) + [DidScrollItem(rep.fromIndex, rep.toIndex, rep.percent)]
    {
      if !isIgnoreScroll {
        var fromIndex := selectedIndex;
        var toIndex := 0;
        var percent := 0.0;
        if selectedIndex == currentIndex {
          toIndex := currentIndex + 1;
          percent := remainderRatio;
        } else {
          toIndex := currentIndex;
          percent := 1.0 - remainderRatio;
        }
        RefreshItemState(fromIndex, toIndex, percent, cellsOnScreen);
        events := events + [DidScrollItem(fromIndex, toIndex, percent)];
      }
    }

    /**
     * The contentOffset observer: a tick is handled when the offset moved
     * while the linked view is being dragged or decelerating; whenever a
     * linked view exists, its new offset is remembered, handled or not.
     */
    method ObserveContentOffset(newX: real, oldX: real, cellsOnScreen: bool)
      requires content.Some? && newX != oldX && content.value.scrolling ==>
        var r := Observe(Count(source), content.value, selectedIndex, lastContentOffsetX, newX);
        r.Tick? && r.selection.Some? && 0 <= r.selection.value < Count(source) && r.selection.value != selectedIndex ==>
          0 <= selectedIndex < |itemModels| && r.selection.value < |itemModels|
      modifies this`selectedIndex, this`itemModels, this`indicator, this`events, this`lastContentOffsetX
      ensures lastContentOffsetX == (if old(content).Some? then newX else old(lastContentOffsetX))
      ensures old(content).Some? && newX != oldX && old(content).value.scrolling ==> ScrollTickEffect(newX, cellsOnScreen)
      ensures !(old(content).Some? && newX != oldX && old(content).value.scrolling) ==>
        selectedIndex == old(selectedIndex) && itemModels == old(itemModels) && indicator == old(indicator) && events == old(events)
    {
      if content.None? {
        return;
      }
      if newX != oldX && content.value.scrolling {
        ContentScrollViewDidChange(newX, cellsOnScreen);
      }
      lastContentOffsetX := newX;
    }
  }
}
