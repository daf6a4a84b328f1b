/** The flyer composer: a pure mapping from the flyer record (and the load state of
    its two image slots) to the layers that exist, with their content and mode. */
module Preview {
  import opened Wrappers
  import opened Types
  import opened Catalog

  // ---------------------------------------------------------------------------
  // Image slots: a two-state automaton per picture, reset when the source changes.

  datatype LoadState = Pending | Loaded

  /** One image slot: the source last rendered and whether that source has loaded. */
  datatype Slot<S> = Slot(src: S, load: LoadState)

  /** What a slot can observe: a render with some source, or the picture's load event. */
  datatype SlotEvent<S> = Render(src: S) | LoadFired

  /** A freshly mounted slot: the loaded flag starts false. */
  function MountSlot<S>(src: S): Slot<S>
  {
    Slot(src, Pending)
  }

  /** The reset effect keyed on the source, and the `onLoad` handler. */
  function Observe<S(==)>(slot: Slot<S>, e: SlotEvent<S>): (r: Slot<S>)
    ensures e.LoadFired? ==> r == Slot(slot.src, Loaded)
    ensures e.Render? ==> r.src == e.src
    ensures e.Render? && r.load == Loaded ==> slot.load == Loaded && slot.src == e.src
    ensures e.Render? && e.src != slot.src ==> r.load == Pending
    ensures e.Render? && e.src == slot.src ==> r == slot
  {
    match e
    case Render(src) => if src == slot.src then slot else Slot(src, Pending)
    case LoadFired => Slot(slot.src, Loaded)
  }

  function ObserveAll<S(==)>(slot: Slot<S>, es: seq<SlotEvent<S>>): Slot<S>
    decreases |es|
  {
    if es == [] then slot else ObserveAll(Observe(slot, es[0]), es[1..])
  }

  /** After a render with a new source, the slot stays pending until a load event
      arrives, however many renders come in between. */
  lemma {:induction false} PendingUntilLoad<S>(slot: Slot<S>, es: seq<SlotEvent<S>>)
    requires slot.load == Pending
    requires LoadFired !in es
    ensures ObserveAll(slot, es).load == Pending
    decreases |es|
  {
    if es != [] {
      assert es[0] in es;
      assert forall e :: e in es[1..] ==> e in es;
      PendingUntilLoad(Observe(slot, es[0]), es[1..]);
    }
  }

  /** A loaded slot stays loaded through renders of its own source (and repeated load
      events): an edit that keeps the picture does not bring the spinner back. */
  lemma {:induction false} LoadedSurvivesSameSource<S>(slot: Slot<S>, es: seq<SlotEvent<S>>)
    requires slot.load == Loaded
    requires forall i :: 0 <= i < |es| ==> es[i] == Render(slot.src) || es[i] == LoadFired
    ensures ObserveAll(slot, es) == slot
    decreases |es|
  {
    if es != [] {
      assert Observe(slot, es[0]) == slot;
      assert forall i :: 0 <= i < |es[1..]| ==> es[1..][i] == es[i + 1];
      LoadedSurvivesSameSource(slot, es[1..]);
    }
  }

  /** The slot always holds the source of the last render (or its first source). */
  lemma {:induction false} SlotTracksLastSource<S>(slot: Slot<S>, es: seq<SlotEvent<S>>, src: S)
    requires |es| > 0 && es[|es| - 1] == Render(src)
    ensures ObserveAll(slot, es).src == src
    decreases |es|
  {
    if |es| == 1 {
      assert es[1..] == [];
    } else {
      assert es[1..][|es[1..]| - 1] == Render(src);
      SlotTracksLastSource(Observe(slot, es[0]), es[1..], src);
    }
  }

  // ---------------------------------------------------------------------------
  // Derived values.

  /** The one flag that switches between the two layouts. */
  datatype LayoutMode = PriceVisible | PriceHidden

  function Mode(s: FlyerState): LayoutMode
  {
    if s.showPrice then PriceVisible else PriceHidden
  }

  /** The product picture: the custom photo if one is set and non-empty, else the
      catalog picture of the selected model, else no picture (`''`). */
  function ProductImage(s: FlyerState): (r: string)
    ensures s.customProductImage.Some? && s.customProductImage.value != "" ==>
      r == s.customProductImage.value
    ensures (s.customProductImage.None? || s.customProductImage.value == "") ==>
      r == (match Lookup(s.brand, s.model) case Some(entry) => entry.img case None => "")
    ensures r == "" <==>
      (s.customProductImage.None? || s.customProductImage.value == "") && Lookup(s.brand, s.model).None?
  {
    if s.customProductImage.Some? && s.customProductImage.value != "" then
      s.customProductImage.value
    else
      match Lookup(s.brand, s.model)
      case Some(entry) => entry.img
      case None => ""
  }

  /** `data.logo || null`: an empty logo counts as no logo. */
  function LogoUrl(s: FlyerState): (r: Option<string>)
    ensures r.Some? <==> s.logo.Some? && s.logo.value != ""
    ensures r.Some? ==> r.value == s.logo.value
  {
    if s.logo.Some? && s.logo.value != "" then s.logo else None
  }

  /** The call-to-action label: the custom text if non-empty, else the preset text. */
  function CtaLabel(s: FlyerState): (r: string)
    ensures s.customCta != "" ==> r == s.customCta
    ensures s.customCta == "" ==> r == s.ctaText
  {
    if s.customCta != "" then s.customCta else s.ctaText
  }

  /** The price shown large: the installment value in installment mode, else the cash price. */
  function UnitPrice(s: FlyerState): (r: real)
    requires InstallmentBearing(s.paymentCondition) ==> s.installments != 0
    ensures InstallmentBearing(s.paymentCondition) ==> r * (s.installments as real) == s.totalWithInterest
    ensures !InstallmentBearing(s.paymentCondition) ==> r == s.price
  {
    if InstallmentBearing(s.paymentCondition) then
      s.totalWithInterest / (s.installments as real)
    else
      s.price
  }

  // ---------------------------------------------------------------------------
  // The composed flyer.

  datatype Background = Photo(url: string) | Solid(color: string)

  /** Theme accent: gold for Christmas, crimson for Black Friday (border and condition label). */
  datatype Accent = Gold | Crimson

  /** A rendered picture: its source, whether the spinner is over it, and whether it is drawn at full opacity. */
  datatype Picture = Picture(src: string, spinner: bool, fullOpacity: bool)

  /** The hero region shows a product picture (tall when the price is hidden) or the
      "Sem Imagem" placeholder. */
  datatype Hero = Placeholder | Product(picture: Picture, tall: bool)

  /** The product-name heading: moderate, or the large headline (gradient on Black Friday). */
  datatype NameStyle = Heading | Headline(gradient: bool)

  datatype PriceBlock = PriceBlock(
    condition: string,
    accent: Accent,
    installmentPrefix: Option<int>,
    unitPrice: real,
    totalLine: Option<real>)

  /** Centred under the price, or rotated in the corner (red on Christmas). */
  datatype CtaStyle = Centered | Corner(red: bool)

  datatype Cta = Cta(text: string, style: CtaStyle)

  datatype Flyer = Flyer(
    mode: LayoutMode,
    background: Background,
    border: Accent,
    watermark: bool,
    themeLogo: string,
    instagram: string,
    memoryBadge: Option<string>,
    hero: Hero,
    productName: string,
    nameStyle: NameStyle,
    price: Option<PriceBlock>,
    cta: Option<Cta>,
    storeLogo: Option<Picture>,
    whatsapp: Option<string>,
    address: Option<string>)

  const ChristmasBackground: string := "https://i.ibb.co/LDpntyXv/Design-sem-nome-2.jpg"

  /** The division the price block needs is defined. */
  predicate Composable(s: FlyerState)
  {
    s.showPrice && InstallmentBearing(s.paymentCondition) ==> s.installments != 0
  }

  function PictureOf(src: string, load: LoadState): Picture
  {
    Picture(src, load == Pending, load == Loaded)
  }

  /** The hero picture: the product image when there is one (tall when the price is
      hidden), else the placeholder. */
  function HeroLayer(s: FlyerState, load: LoadState): (h: Hero)
    ensures h.Placeholder? <==> ProductImage(s) == ""
    ensures h.Product? ==> h.picture.src == ProductImage(s)
    ensures h.Product? ==> (h.tall <==> !s.showPrice)
    ensures h.Product? ==> (h.picture.spinner <==> load == Pending)
    ensures h.Product? ==> (h.picture.fullOpacity <==> load == Loaded)
  {
    var image := ProductImage(s);
    if image != "" then Product(PictureOf(image, load), !s.showPrice) else Placeholder
  }

  /** The price region: present only when the price is shown; the installment count
      and the total line appear exactly in installment mode. */
  function PriceRegion(s: FlyerState): (r: Option<PriceBlock>)
    requires Composable(s)
    ensures r.Some? <==> s.showPrice
    ensures r.Some? ==> r.value.condition == s.paymentCondition
    ensures r.Some? ==> (r.value.installmentPrefix.Some? <==> InstallmentBearing(s.paymentCondition))
    ensures r.Some? ==> (r.value.totalLine.Some? <==> InstallmentBearing(s.paymentCondition))
    ensures r.Some? && InstallmentBearing(s.paymentCondition) ==>
      && r.value.installmentPrefix == Some(s.installments)
      && r.value.totalLine == Some(s.totalWithInterest)
      && r.value.unitPrice * (s.installments as real) == s.totalWithInterest
    ensures r.Some? && !InstallmentBearing(s.paymentCondition) ==> r.value.unitPrice == s.price
  {
    if !s.showPrice then None
    else
      var installment := InstallmentBearing(s.paymentCondition);
      Some(PriceBlock(
        condition := s.paymentCondition,
        accent := if s.theme == Christmas then Gold else Crimson,
        installmentPrefix := if installment then Some(s.installments) else None,
        unitPrice := UnitPrice(s),
        totalLine := if installment then Some(s.totalWithInterest) else None))
  }

  /** The call to action: present only when enabled; same text in both layouts, centred
      when the price is shown and in the corner when it is hidden. */
  function CtaLayer(s: FlyerState): (r: Option<Cta>)
    ensures r.Some? <==> s.showCta
    ensures r.Some? ==> r.value.text == CtaLabel(s)
    ensures r.Some? ==> (r.value.style.Centered? <==> s.showPrice)
    ensures r.Some? && !s.showPrice ==> (r.value.style.red <==> s.theme == Christmas)
  {
    if s.showCta then
      Some(Cta(CtaLabel(s), if s.showPrice then Centered else Corner(s.theme == Christmas)))
    else
      None
  }

  /** The store logo in the footer: present only when enabled and a non-empty logo is set. */
  function StoreLogoLayer(s: FlyerState, load: LoadState): (r: Option<Picture>)
    ensures r.Some? <==> s.showLogo && LogoUrl(s).Some?
    ensures r.Some? ==> r.value.src == LogoUrl(s).value
    ensures r.Some? ==> (r.value.spinner <==> load == Pending)
    ensures r.Some? ==> (r.value.fullOpacity <==> load == Loaded)
  {
    match LogoUrl(s)
    case Some(url) => if s.showLogo then Some(PictureOf(url, load)) else None
    case None => None
  }

  /** The flyer for record `s`, with the product and logo slots in the given load states. */
  function Compose(s: FlyerState, product: LoadState, logo: LoadState): (f: Flyer)
    requires Composable(s)
    ensures f.mode == Mode(s)
    ensures s.model != "" ==> f.productName == s.model
    ensures s.model == "" ==> f.productName == "MODELO"
    ensures f.memoryBadge.Some? ==> f.memoryBadge.value == s.memory
    ensures f.whatsapp.Some? ==> f.whatsapp.value == s.whatsapp
    ensures f.address.Some? ==> f.address.value == s.address
  {
    ThemeLogosDefined();
    var christmas := s.theme == Christmas;
    Flyer(
      mode := Mode(s),
      background := if christmas then Photo(ChristmasBackground) else Solid("#000000"),
      border := if christmas then Gold else Crimson,
      watermark := !christmas,
      themeLogo := ThemeLogos[ThemeTag(s.theme)],
      instagram := s.instagram,
      memoryBadge := if s.showMemory && s.memory != "" then Some(s.memory) else None,
      hero := HeroLayer(s, product),
      productName := if s.model != "" then s.model else "MODELO",
      nameStyle := if s.showPrice then Heading else Headline(!christmas),
      price := PriceRegion(s),
      cta := CtaLayer(s),
      storeLogo := StoreLogoLayer(s, logo),
      whatsapp := if s.showContact then Some(s.whatsapp) else None,
      address := if s.showAddress && s.address != "" then Some(s.address) else None)
  }

  /** The layout is the price-visible one exactly when the price is shown. The theme's
      accent frames the flyer and its logo heads it, over the Christmas photo
      or plain black; the header badge shows the shop's handle; the product name becomes
      the large headline exactly when the price is hidden, with the gradient on Black
      Friday. */
  lemma ComposeStyle(s: FlyerState, product: LoadState, logo: LoadState)
    requires Composable(s)
    ensures ThemeTag(s.theme) in ThemeLogos
    ensures Compose(s, product, logo).background ==
      (if s.theme == Christmas then Photo(ChristmasBackground) else Solid("#000000"))
    ensures Compose(s, product, logo).border == (if s.theme == Christmas then Gold else Crimson)
    ensures Compose(s, product, logo).instagram == s.instagram
    ensures Compose(s, product, logo).mode == PriceVisible <==> s.showPrice
    ensures Compose(s, product, logo).themeLogo == ThemeLogos[ThemeTag(s.theme)]
    ensures Compose(s, product, logo).nameStyle.Headline? <==> !s.showPrice
    ensures Compose(s, product, logo).nameStyle.Headline? ==>
      (Compose(s, product, logo).nameStyle.gradient <==> s.theme == BlackFriday)
  {
    ThemeLogosDefined();
  }

  /** The flyer's picture, price, call to action and store logo are the layers above: the
      hero and the store logo follow their slots, and the price block shares the border's
      accent. */
  lemma ComposeLayers(s: FlyerState, product: LoadState, logo: LoadState)
    requires Composable(s)
    ensures Compose(s, product, logo).hero == HeroLayer(s, product)
    ensures Compose(s, product, logo).price == PriceRegion(s)
    ensures Compose(s, product, logo).price.Some? ==>
      Compose(s, product, logo).price.value.accent == Compose(s, product, logo).border
    ensures Compose(s, product, logo).cta == CtaLayer(s)
    ensures Compose(s, product, logo).storeLogo == StoreLogoLayer(s, logo)
  {
  }

  /** On the first render the slots are freshly mounted: a product picture starts under
      its spinner and invisible until it loads, and so does a store logo. */
  lemma FirstRenderSpins(t: FlyerState)
    requires Composable(t)
    ensures
      var f := Compose(t, MountSlot(ProductImage(t)).load, MountSlot(LogoUrl(t)).load);
      && (f.hero.Product? ==> f.hero.picture.spinner && !f.hero.picture.fullOpacity)
      && (f.storeLogo.Some? ==> f.storeLogo.value.spinner && !f.storeLogo.value.fullOpacity)
  {
    ComposeLayers(t, MountSlot(ProductImage(t)).load, MountSlot(LogoUrl(t)).load);
  }

  /** The product slot across an edit from `s` to `t`, as the next render sees it: a new
      picture brings the spinner back and hides the picture until it loads; the same
      picture keeps whatever load state it had. */
  lemma PictureSlotAcrossEdit(s: FlyerState, t: FlyerState, slot: Slot<string>, logo: LoadState)
    requires Composable(t) && slot.src == ProductImage(s) && ProductImage(t) != ""
    ensures
      var hero := Compose(t, Observe(slot, Render(ProductImage(t))).load, logo).hero;
      && hero.Product? && hero.picture.src == ProductImage(t)
      && (ProductImage(t) != ProductImage(s) ==> hero.picture.spinner && !hero.picture.fullOpacity)
      && (ProductImage(t) == ProductImage(s) ==> (hero.picture.fullOpacity <==> slot.load == Loaded))
  {
    ComposeLayers(t, Observe(slot, Render(ProductImage(t))).load, logo);
  }

  /** The logo slot across an edit from `s` to `t`, keyed on the logo URL in the same way. */
  lemma LogoSlotAcrossEdit(s: FlyerState, t: FlyerState, slot: Slot<Option<string>>, product: LoadState)
    requires Composable(t) && slot.src == LogoUrl(s) && t.showLogo && LogoUrl(t).Some?
    ensures
      var mark := Compose(t, product, Observe(slot, Render(LogoUrl(t))).load).storeLogo;
      && mark.Some? && mark.value.src == LogoUrl(t).value
      && (LogoUrl(t) != LogoUrl(s) ==> mark.value.spinner && !mark.value.fullOpacity)
      && (LogoUrl(t) == LogoUrl(s) ==> (mark.value.fullOpacity <==> slot.load == Loaded))
  {
    ComposeLayers(t, product, Observe(slot, Render(LogoUrl(t))).load);
  }

  // ---------------------------------------------------------------------------
  // What the composer promises, stated apart from how it builds the flyer.

  /** The optional elements of a flyer. */
  datatype Element =
    | Watermark | ChristmasPhoto | MemoryBadge | ProductPicture | NoImagePlaceholder
    | PriceBlockElement | InstallmentLines | CallToAction | StoreLogo | WhatsappLine | AddressLine

  /** The visibility rule of each element, as a table over the record. */
  predicate Shown(s: FlyerState, e: Element)
  {
    match e
    case Watermark => s.theme == BlackFriday
    case ChristmasPhoto => s.theme == Christmas
    case MemoryBadge => s.showMemory && s.memory != ""
    case ProductPicture => ProductImage(s) != ""
    case NoImagePlaceholder => ProductImage(s) == ""
    case PriceBlockElement => s.showPrice
    case InstallmentLines => s.showPrice && InstallmentBearing(s.paymentCondition)
    case CallToAction => s.showCta
    case StoreLogo => s.showLogo && s.logo.Some? && s.logo.value != ""
    case WhatsappLine => s.showContact
    case AddressLine => s.showAddress && s.address != ""
  }

  /** Whether a composed flyer carries the element. */
  predicate Present(f: Flyer, e: Element)
  {
    match e
    case Watermark => f.watermark
    case ChristmasPhoto => f.background.Photo?
    case MemoryBadge => f.memoryBadge.Some?
    case ProductPicture => f.hero.Product?
    case NoImagePlaceholder => f.hero.Placeholder?
    case PriceBlockElement => f.price.Some?
    case InstallmentLines => f.price.Some? && f.price.value.installmentPrefix.Some? && f.price.value.totalLine.Some?
    case CallToAction => f.cta.Some?
    case StoreLogo => f.storeLogo.Some?
    case WhatsappLine => f.whatsapp.Some?
    case AddressLine => f.address.Some?
  }

  /** The composer shows exactly the elements the visibility table calls for, whatever
      the load state of the two pictures. */
  lemma ComposeShowsExactly(s: FlyerState, product: LoadState, logo: LoadState)
    requires Composable(s)
    ensures forall e :: Present(Compose(s, product, logo), e) <==> Shown(s, e)
  {
    var f := Compose(s, product, logo);
    forall e
      ensures Present(f, e) <==> Shown(s, e)
    {
      match e
      case InstallmentLines =>
        if s.showPrice {
          assert f.price == PriceRegion(s);
        }
      case _ =>
    }
  }

  /** The backdrop (background, border, watermark and header logo) depends on the theme
      and on nothing else. */
  lemma ThemeDecidesBackdrop(s: FlyerState, t: FlyerState, product: LoadState, logo: LoadState)
    requires Composable(s) && Composable(t) && s.theme == t.theme
    ensures Compose(s, product, logo).background == Compose(t, product, logo).background
    ensures Compose(s, product, logo).border == Compose(t, product, logo).border
    ensures Compose(s, product, logo).watermark == Compose(t, product, logo).watermark
    ensures Compose(s, product, logo).themeLogo == Compose(t, product, logo).themeLogo
  {
  }

  /** Toggling the price switches the layout and nothing else: every element other than
      the price block keeps its content, the CTA keeps its text, and the hero keeps its
      picture. */
  lemma PriceToggleOnlySwitchesLayout(s: FlyerState, product: LoadState, logo: LoadState)
    requires Composable(s) && Composable(s.(showPrice := !s.showPrice))
    ensures
      var f := Compose(s, product, logo);
      var g := Compose(s.(showPrice := !s.showPrice), product, logo);
      && f.mode != g.mode
      && f.background == g.background && f.border == g.border && f.watermark == g.watermark
      && f.themeLogo == g.themeLogo && f.instagram == g.instagram && f.memoryBadge == g.memoryBadge
      && f.productName == g.productName && f.storeLogo == g.storeLogo
      && f.whatsapp == g.whatsapp && f.address == g.address
      && f.hero.Product? == g.hero.Product?
      && (f.hero.Product? ==> f.hero.picture == g.hero.picture && f.hero.tall != g.hero.tall)
      && f.cta.Some? == g.cta.Some?
      && (f.cta.Some? ==> f.cta.value.text == g.cta.value.text)
  {
    var t := s.(showPrice := !s.showPrice);
    assert ProductImage(t) == ProductImage(s);
    assert LogoUrl(t) == LogoUrl(s);
  }
}
