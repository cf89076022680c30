/**
 * HXPageTabBarItem.swift: the interpolation helpers of HXPageTabBarUtil,
 * the item model a tab shows, and the choice of font and colour a cell
 * makes from that model.  CGFloat is modelled as an exact `real`.
 */
module TabBarItem {
  import opened Numerics

  /** The progress clamp `min(max(0, percent), 1)`. */
  function Clamp01(percent: real): (t: real)
    ensures 0.0 <= t <= 1.0
    ensures 0.0 <= percent <= 1.0 ==> t == percent
    ensures percent < 0.0 ==> t == 0.0
    ensures percent > 1.0 ==> t == 1.0
  {
    Min(Max(0.0, percent), 1.0)
  }

  /** A span `d` scaled by a factor t in [0, 1] (the product `scaled`) stays between 0 and the span. */
  lemma ScaleWithinRange(d: real, t: real, scaled: real)
    requires 0.0 <= t <= 1.0 && scaled == d * t
    ensures d >= 0.0 ==> 0.0 <= scaled <= d
    ensures d <= 0.0 ==> d <= scaled <= 0.0
  {
    if d >= 0.0 {
      MulNonNegative(d, t);
      MulNonNegative(d, 1.0 - t);
      assert d * (1.0 - t) == d - d * t;
    } else {
      MulNonNegative(-d, t);
      MulNonNegative(-d, 1.0 - t);
      assert (-d) * t == -(d * t);
      assert (-d) * (1.0 - t) == d * t - d;
    }
  }

  /** Moving the fraction t in [0, 1] of the way from `from` to `to` stays between the two. */
  lemma BlendWithinEnds(from: real, to: real, t: real)
    requires 0.0 <= t <= 1.0
    ensures Min(from, to) <= from + (to - from) * t <= Max(from, to)
  {
    ScaleWithinRange(to - from, t, (to - from) * t);
  }

  /** interpolationValue: blends `from` towards `to` by the clamped progress. */
  function Lerp(from: real, to: real, percent: real): (r: real)
    ensures percent <= 0.0 ==> r == from
    ensures percent >= 1.0 ==> r == to
    ensures Min(from, to) <= r <= Max(from, to)
  {
    var t := Clamp01(percent);
    BlendWithinEnds(from, to, t);
    from + (to - from) * t
  }

  /** Blending a value with itself gives that value, whatever the progress. */
  lemma LerpSame(a: real, percent: real)
    ensures Lerp(a, a, percent) == a
  {
  }

  /** Inside [0, 1] the result has moved exactly the fraction `percent` of the way. */
  lemma LerpFraction(from: real, to: real, percent: real)
    requires 0.0 <= percent <= 1.0
    ensures Lerp(from, to, percent) - from == percent * (to - from)
  {
  }

  /** Lerp is monotone in the progress: increasing when from <= to, decreasing otherwise. */
  lemma LerpMonotone(from: real, to: real, p: real, q: real)
    requires p <= q
    ensures from <= to ==> Lerp(from, to, p) <= Lerp(from, to, q)
    ensures from >= to ==> Lerp(from, to, p) >= Lerp(from, to, q)
  {
    var tp, tq := Clamp01(p), Clamp01(q);
    assert tp <= tq;
    var d := to - from;
    if from <= to {
      MulNonNegative(d, tq - tp);
      assert d * (tq - tp) == d * tq - d * tp;
    } else {
      MulNonNegative(-d, tq - tp);
      assert (-d) * (tq - tp) == d * tp - d * tq;
    }
  }

  /** A UIFont reduced to what the widget uses: its descriptor (face, weight, ...) and its size. */
  datatype Font = Font(descriptor: int, pointSize: real)

  /** A UIColor as its RGBA components (what `getRed(_:green:blue:alpha:)` reports). */
  datatype Color = Color(red: real, green: real, blue: real, alpha: real)

  /** The descriptor of `UIFont.systemFont(ofSize:)`. */
  const SystemFontDescriptor: int := 0
  /** `UIFont.systemFont(ofSize: 15)`, the default of both title fonts. */
  const DefaultFont: Font := Font(SystemFontDescriptor, 15.0)
  /** `UIColor.lightGray` (white 2/3), the default normal title colour. */
  const LightGray: Color := Color(2.0 / 3.0, 2.0 / 3.0, 2.0 / 3.0, 1.0)
  /** `UIColor.black`, the default highlighted title colour. */
  const Black: Color := Color(0.0, 0.0, 0.0, 1.0)

  /**
   * interpolationFont as HXPageTabBarItem.swift writes it: only the point size
   * is blended; the descriptor is the from-font's, so at full progress the
   * result has the to-font's size but still the from-font's face.
   */
  function InterpolationFontAsWritten(fromFont: Font, toFont: Font, percent: real): (f: Font)
    ensures f.descriptor == fromFont.descriptor
    ensures f.pointSize == Lerp(fromFont.pointSize, toFont.pointSize, percent)
    ensures percent <= 0.0 ==> f == fromFont
  {
    Font(fromFont.descriptor, Lerp(fromFont.pointSize, toFont.pointSize, percent))
  }

  /** With two faces, the as-written blend never arrives at the target font, even at full progress. */
  lemma AsWrittenMissesTarget(fromFont: Font, toFont: Font, percent: real)
    requires fromFont.descriptor != toFont.descriptor
    ensures InterpolationFontAsWritten(fromFont, toFont, percent) != toFont
    ensures percent >= 1.0 ==> InterpolationFontAsWritten(fromFont, toFont, percent) == Font(fromFont.descriptor, toFont.pointSize)
  {
  }

  /**
   * interpolationFont as it is evidently meant (and as interpolationValue and
   * interpolationColor behave): the size is blended, the from-font's face is
   * kept during the transition, and at full progress the result is the
   * to-font itself.
   */
  function InterpolationFont(fromFont: Font, toFont: Font, percent: real): (f: Font)
    ensures f.pointSize == Lerp(fromFont.pointSize, toFont.pointSize, percent)
    ensures percent < 1.0 ==> f.descriptor == fromFont.descriptor
    ensures percent <= 0.0 ==> f == fromFont
    ensures percent >= 1.0 ==> f == toFont
  {
    Font(if percent >= 1.0 then toFont.descriptor else fromFont.descriptor, Lerp(fromFont.pointSize, toFont.pointSize, percent))
  }

  /** The correction changes nothing before full progress, nor at all when the two fonts share a face. */
  lemma InterpolationFontAgreesWithAsWritten(fromFont: Font, toFont: Font, percent: real)
    requires percent < 1.0 || fromFont.descriptor == toFont.descriptor
    ensures InterpolationFont(fromFont, toFont, percent) == InterpolationFontAsWritten(fromFont, toFont, percent)
  {
  }

  /**
   * The two font blends side by side: the one the source writes and the one
   * it evidently intends.  They agree except at full progress between two
   * faces (InterpolationFontAgreesWithAsWritten).
   */
  datatype FontBlend = AsWritten | Intended

  function BlendFont(blend: FontBlend, fromFont: Font, toFont: Font, percent: real): (f: Font)
    ensures f.pointSize == Lerp(fromFont.pointSize, toFont.pointSize, percent)
    ensures percent <= 0.0 ==> f == fromFont
    ensures percent >= 1.0 && (blend == Intended || fromFont.descriptor == toFont.descriptor) ==> f == toFont
    ensures percent >= 1.0 && blend == AsWritten ==> f == Font(fromFont.descriptor, toFont.pointSize)
  {
    match blend
    case AsWritten => InterpolationFontAsWritten(fromFont, toFont, percent)
    case Intended => InterpolationFont(fromFont, toFont, percent)
  }

  /** interpolationColor: each of the four channels is blended on its own. */
  function InterpolationColor(fromColor: Color, toColor: Color, percent: real): (c: Color)
    ensures percent <= 0.0 ==> c == fromColor
    ensures percent >= 1.0 ==> c == toColor
    ensures Min(fromColor.red, toColor.red) <= c.red <= Max(fromColor.red, toColor.red)
    ensures Min(fromColor.green, toColor.green) <= c.green <= Max(fromColor.green, toColor.green)
    ensures Min(fromColor.blue, toColor.blue) <= c.blue <= Max(fromColor.blue, toColor.blue)
    ensures Min(fromColor.alpha, toColor.alpha) <= c.alpha <= Max(fromColor.alpha, toColor.alpha)
  {
    Color(Lerp(fromColor.red, toColor.red, percent),
          Lerp(fromColor.green, toColor.green, percent),
          Lerp(fromColor.blue, toColor.blue, percent),
          Lerp(fromColor.alpha, toColor.alpha, percent))
  }

  /** Within [0, 1] every channel has moved the same fraction `percent` of its way. */
  lemma InterpolationColorSameProgress(fromColor: Color, toColor: Color, percent: real)
    requires 0.0 <= percent <= 1.0
    ensures var c := InterpolationColor(fromColor, toColor, percent);
      && c.red - fromColor.red == percent * (toColor.red - fromColor.red)
      && c.green - fromColor.green == percent * (toColor.green - fromColor.green)
      && c.blue - fromColor.blue == percent * (toColor.blue - fromColor.blue)
      && c.alpha - fromColor.alpha == percent * (toColor.alpha - fromColor.alpha)
  {
    LerpFraction(fromColor.red, toColor.red, percent);
    LerpFraction(fromColor.green, toColor.green, percent);
    LerpFraction(fromColor.blue, toColor.blue, percent);
    LerpFraction(fromColor.alpha, toColor.alpha, percent);
  }

  /** HXPageTabBarItemModel. */
  datatype ItemModel = ItemModel(
    title: string,
    titleFont: Font,
    titleHighlightedFont: Font,
    titleColor: Color,
    titleHighlightedColor: Color,
    itemWidth: real,
    isSelected: bool)

  /** What the cell's title label shows. */
  datatype Label = Label(text: string, font: Font, textColor: Color)

  /** configItem: the highlighted font and colour for a selected model, the normal ones otherwise. */
  function ConfigItem(model: ItemModel): (shown: Label)
    ensures shown.text == model.title
    ensures model.isSelected ==> shown.font == model.titleHighlightedFont && shown.textColor == model.titleHighlightedColor
    ensures !model.isSelected ==> shown.font == model.titleFont && shown.textColor == model.titleColor
  {
    if model.isSelected then
      Label(model.title, model.titleHighlightedFont, model.titleHighlightedColor)
    else
      Label(model.title, model.titleFont, model.titleColor)
  }
}
