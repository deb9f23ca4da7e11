/** The companion's render surface: a read-only view of the store's state.
    It computes the icon's pixel size, the animation targets, the image and
    whether the speech bubble shows. Animation and layout are not modelled. */
module CompanionOverlay {
  import opened Wrappers
  import C = Companion

  /** The icon size a `Base` companion has when no logo rectangle is cached. */
  const FallbackLogoWidth: real := 28.0

  /** `Math.max(1, Math.floor(logoRect?.width ?? 28))`. */
  function LogoBase(logoRect: Option<C.Rect>): (b: int)
    ensures b >= 1
    ensures logoRect.None? ==> b == 28
    ensures logoRect.Some? && logoRect.value.width >= 1.0 ==>
      b as real <= logoRect.value.width < b as real + 1.0
    ensures logoRect.Some? && logoRect.value.width < 1.0 ==> b == 1
  {
    var f := (match logoRect case Some(rect) => rect.width case None => FallbackLogoWidth).Floor;
    if f < 1 then 1 else f
  }

  function MaxOne(n: int): int {
    if n < 1 then 1 else n
  }

  /** The icon's width and height in pixels for each size mode. */
  function PixelSize(size: C.Size, logoBase: int): (px: int)
    requires logoBase >= 1
    ensures size == C.Base ==> px == logoBase
    ensures size == C.Medium ==> px == 2 * logoBase
    ensures size == C.Large ==> px == 8 * logoBase
  {
    match size
    case Base => logoBase
    case Medium => MaxOne(logoBase * 2)
    case Large => MaxOne(logoBase * 8)
  }

  /** Larger modes never draw a smaller icon. */
  lemma PixelSizeMonotone(logoBase: int)
    requires logoBase >= 1
    ensures 1 <= PixelSize(C.Base, logoBase) < PixelSize(C.Medium, logoBase) < PixelSize(C.Large, logoBase)
  {
  }

  /** An animation target for one edge: the screen centre ("50%"), a pixel
      offset, or left unset. */
  datatype Target = Centre | Px(px: real) | Unset

  function FromOption(v: Option<real>): (t: Target)
    ensures v.None? <==> t == Unset
    ensures v.Some? ==> t == Px(v.value)
  {
    match v
    case Some(x) => Px(x)
    case None => Unset
  }

  /** The image shown for each avatar. */
  function AvatarSrc(a: C.Avatar): (src: string)
    ensures a == C.Logo ==> src == "/logo.png"
    ensures a == C.AnimeGirl ==> src == "/companion/anime_girl.png"
    ensures a == C.Mad ==> src == "/companion/mad.png"
  {
    if a == C.Logo then "/logo.png"
    else if a == C.AnimeGirl then "/companion/anime_girl.png"
    else "/companion/mad.png"
  }

  /** Distinct avatars show distinct images. */
  lemma AvatarSrcInjective(a: C.Avatar, b: C.Avatar)
    ensures AvatarSrc(a) == AvatarSrc(b) ==> a == b
  {
  }

  /** The speech bubble text: shown exactly when a message with non-empty text exists. */
  function Bubble(message: Option<C.Message>): (b: Option<string>)
    ensures b.Some? <==> message.Some? && message.value.text != ""
    ensures b.Some? ==> b.value == message.value.text
  {
    match message
    case Some(m) => if m.text != "" then Some(m.text) else None
    case None => None
  }

  /** What one render draws. */
  datatype View = View(
    sizePx: int,
    top: Target, left: Target, right: Target, bottom: Target,
    translateToCentre: bool,
    enterFrom: Option<(real, real)>,
    src: string,
    bubble: Option<string>)

  /** The whole render: nothing while hidden; otherwise the icon at its size,
      either centred on the screen or at the stored top/left, never anchored
      by right/bottom. */
  function Render(s: C.State): (v: Option<View>)
    ensures v.None? <==> !s.isVisible
    ensures v.Some? ==>
      && v.value.sizePx == PixelSize(s.size, LogoBase(s.logoRect))
      && v.value.sizePx >= 1
      && (s.isCentered ==> v.value.top == Centre && v.value.left == Centre && v.value.translateToCentre)
      && (!s.isCentered ==> v.value.top == FromOption(s.position.top) && v.value.left == FromOption(s.position.left)
                            && !v.value.translateToCentre)
      && v.value.right == Unset && v.value.bottom == Unset
      && v.value.src == AvatarSrc(s.avatar)
      && v.value.bubble == Bubble(s.message)
  {
    if !s.isVisible then None
    else
      var base := LogoBase(s.logoRect);
      Some(View(
        PixelSize(s.size, base),
        if s.isCentered then Centre else FromOption(s.position.top),
        if s.isCentered then Centre else FromOption(s.position.left),
        Unset, Unset,
        s.isCentered,
        match s.logoRect case Some(rect) => Some((rect.y, rect.x)) case None => None,
        AvatarSrc(s.avatar),
        Bubble(s.message)))
  }

  /** The store's initial state draws nothing. */
  lemma InitialRendersNothing()
    ensures Render(C.Initial()) == None
  {
  }

  /** The store's home placement is given by right/bottom only, which the
      renderer ignores: a shown but never-moved companion has no top/left target. */
  lemma HomePositionHasNoTarget(s: C.State)
    requires s.isVisible && !s.isCentered && s.position == C.HomePosition
    ensures Render(s).value.top == Unset && Render(s).value.left == Unset
  {
  }
}
