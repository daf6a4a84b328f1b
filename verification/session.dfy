/** The session's single state record and its one update rule: a partial record is
    spread over the previous state (`{ ...prev, ...patch }`). */
module Session {
  import opened Wrappers
  import opened Types

  /** A partial flyer record, `Partial<FlyerState>`: each field is given or absent. */
  datatype Patch = Patch(
    theme: Option<ThemeType>,
    brand: Option<Brand>,
    model: Option<string>,
    memory: Option<string>,
    price: Option<real>,
    paymentCondition: Option<string>,
    installments: Option<int>,
    totalWithInterest: Option<real>,
    instagram: Option<string>,
    whatsapp: Option<string>,
    address: Option<string>,
    ctaText: Option<string>,
    customCta: Option<string>,
    logo: Option<Option<string>>,
    customProductImage: Option<Option<string>>,
    showPrice: Option<bool>,
    showContact: Option<bool>,
    showAddress: Option<bool>,
    showCta: Option<bool>,
    showLogo: Option<bool>,
    showMemory: Option<bool>,
    enableAnimations: Option<bool>)

  /** The patch that gives no field. */
  const NoChange: Patch := Patch(None, None, None, None, None, None, None, None, None, None, None, None, None, None, None, None, None, None, None, None, None, None)

  /** `handleStateChange`: the previous record with the patch spread over it. */
  function Apply(s: FlyerState, p: Patch): FlyerState
  {
    FlyerState(
      theme := p.theme.GetOr(s.theme),
      brand := p.brand.GetOr(s.brand),
      model := p.model.GetOr(s.model),
      memory := p.memory.GetOr(s.memory),
      price := p.price.GetOr(s.price),
      paymentCondition := p.paymentCondition.GetOr(s.paymentCondition),
      installments := p.installments.GetOr(s.installments),
      totalWithInterest := p.totalWithInterest.GetOr(s.totalWithInterest),
      instagram := p.instagram.GetOr(s.instagram),
      whatsapp := p.whatsapp.GetOr(s.whatsapp),
      address := p.address.GetOr(s.address),
      ctaText := p.ctaText.GetOr(s.ctaText),
      customCta := p.customCta.GetOr(s.customCta),
      logo := p.logo.GetOr(s.logo),
      customProductImage := p.customProductImage.GetOr(s.customProductImage),
      showPrice := p.showPrice.GetOr(s.showPrice),
      showContact := p.showContact.GetOr(s.showContact),
      showAddress := p.showAddress.GetOr(s.showAddress),
      showCta := p.showCta.GetOr(s.showCta),
      showLogo := p.showLogo.GetOr(s.showLogo),
      showMemory := p.showMemory.GetOr(s.showMemory),
      enableAnimations := p.enableAnimations.GetOr(s.enableAnimations))
  }

  /** `{ ...p, ...q }`: the fields of both patches, those of `q` taking precedence. */
  function Spread(p: Patch, q: Patch): Patch
  {
    Patch(
      theme := if q.theme.Some? then q.theme else p.theme,
      brand := if q.brand.Some? then q.brand else p.brand,
      model := if q.model.Some? then q.model else p.model,
      memory := if q.memory.Some? then q.memory else p.memory,
      price := if q.price.Some? then q.price else p.price,
      paymentCondition := if q.paymentCondition.Some? then q.paymentCondition else p.paymentCondition,
      installments := if q.installments.Some? then q.installments else p.installments,
      totalWithInterest := if q.totalWithInterest.Some? then q.totalWithInterest else p.totalWithInterest,
      instagram := if q.instagram.Some? then q.instagram else p.instagram,
      whatsapp := if q.whatsapp.Some? then q.whatsapp else p.whatsapp,
      address := if q.address.Some? then q.address else p.address,
      ctaText := if q.ctaText.Some? then q.ctaText else p.ctaText,
      customCta := if q.customCta.Some? then q.customCta else p.customCta,
      logo := if q.logo.Some? then q.logo else p.logo,
      customProductImage := if q.customProductImage.Some? then q.customProductImage else p.customProductImage,
      showPrice := if q.showPrice.Some? then q.showPrice else p.showPrice,
      showContact := if q.showContact.Some? then q.showContact else p.showContact,
      showAddress := if q.showAddress.Some? then q.showAddress else p.showAddress,
      showCta := if q.showCta.Some? then q.showCta else p.showCta,
      showLogo := if q.showLogo.Some? then q.showLogo else p.showLogo,
      showMemory := if q.showMemory.Some? then q.showMemory else p.showMemory,
      enableAnimations := if q.enableAnimations.Some? then q.enableAnimations else p.enableAnimations)
  }

  /** The keys of the flyer record, to speak of "every field" at once. */
  datatype Key =
    | ThemeKey | BrandKey | ModelKey | MemoryKey
    | PriceKey | PaymentConditionKey | InstallmentsKey | TotalWithInterestKey
    | InstagramKey | WhatsappKey | AddressKey | CtaTextKey
    | CustomCtaKey | LogoKey | CustomProductImageKey | ShowPriceKey
    | ShowContactKey | ShowAddressKey | ShowCtaKey | ShowLogoKey
    | ShowMemoryKey | EnableAnimationsKey

  /** A field value, tagged with its type. */
  datatype Value =
    | ThemeVal(theme: ThemeType)
    | BrandVal(brand: Brand)
    | TextVal(text: string)
    | NumVal(num: real)
    | IntVal(count: int)
    | ImageVal(image: Option<string>)
    | FlagVal(flag: bool)

  /** The value the record holds under key `k`. */
  function Get(s: FlyerState, k: Key): Value
  {
    match k
    case ThemeKey => ThemeVal(s.theme)
    case BrandKey => BrandVal(s.brand)
    case ModelKey => TextVal(s.model)
    case MemoryKey => TextVal(s.memory)
    case PriceKey => NumVal(s.price)
    case PaymentConditionKey => TextVal(s.paymentCondition)
    case InstallmentsKey => IntVal(s.installments)
    case TotalWithInterestKey => NumVal(s.totalWithInterest)
    case InstagramKey => TextVal(s.instagram)
    case WhatsappKey => TextVal(s.whatsapp)
    case AddressKey => TextVal(s.address)
    case CtaTextKey => TextVal(s.ctaText)
    case CustomCtaKey => TextVal(s.customCta)
    case LogoKey => ImageVal(s.logo)
    case CustomProductImageKey => ImageVal(s.customProductImage)
    case ShowPriceKey => FlagVal(s.showPrice)
    case ShowContactKey => FlagVal(s.showContact)
    case ShowAddressKey => FlagVal(s.showAddress)
    case ShowCtaKey => FlagVal(s.showCta)
    case ShowLogoKey => FlagVal(s.showLogo)
    case ShowMemoryKey => FlagVal(s.showMemory)
    case EnableAnimationsKey => FlagVal(s.enableAnimations)
  }

  /** The value the patch gives for key `k`, if it gives one. */
  function Given(p: Patch, k: Key): Option<Value>
  {
    match k
    case ThemeKey => if p.theme.Some? then Some(ThemeVal(p.theme.value)) else None
    case BrandKey => if p.brand.Some? then Some(BrandVal(p.brand.value)) else None
    case ModelKey => if p.model.Some? then Some(TextVal(p.model.value)) else None
    case MemoryKey => if p.memory.Some? then Some(TextVal(p.memory.value)) else None
    case PriceKey => if p.price.Some? then Some(NumVal(p.price.value)) else None
    case PaymentConditionKey => if p.paymentCondition.Some? then Some(TextVal(p.paymentCondition.value)) else None
    case InstallmentsKey => if p.installments.Some? then Some(IntVal(p.installments.value)) else None
    case TotalWithInterestKey => if p.totalWithInterest.Some? then Some(NumVal(p.totalWithInterest.value)) else None
    case InstagramKey => if p.instagram.Some? then Some(TextVal(p.instagram.value)) else None
    case WhatsappKey => if p.whatsapp.Some? then Some(TextVal(p.whatsapp.value)) else None
    case AddressKey => if p.address.Some? then Some(TextVal(p.address.value)) else None
    case CtaTextKey => if p.ctaText.Some? then Some(TextVal(p.ctaText.value)) else None
    case CustomCtaKey => if p.customCta.Some? then Some(TextVal(p.customCta.value)) else None
    case LogoKey => if p.logo.Some? then Some(ImageVal(p.logo.value)) else None
    case CustomProductImageKey => if p.customProductImage.Some? then Some(ImageVal(p.customProductImage.value)) else None
    case ShowPriceKey => if p.showPrice.Some? then Some(FlagVal(p.showPrice.value)) else None
    case ShowContactKey => if p.showContact.Some? then Some(FlagVal(p.showContact.value)) else None
    case ShowAddressKey => if p.showAddress.Some? then Some(FlagVal(p.showAddress.value)) else None
    case ShowCtaKey => if p.showCta.Some? then Some(FlagVal(p.showCta.value)) else None
    case ShowLogoKey => if p.showLogo.Some? then Some(FlagVal(p.showLogo.value)) else None
    case ShowMemoryKey => if p.showMemory.Some? then Some(FlagVal(p.showMemory.value)) else None
    case EnableAnimationsKey => if p.enableAnimations.Some? then Some(FlagVal(p.enableAnimations.value)) else None
  }

  /** Records with equal fields are equal. */
  lemma SameFields(a: FlyerState, b: FlyerState)
    requires a.theme == b.theme
      && a.brand == b.brand
      && a.model == b.model
      && a.memory == b.memory
      && a.price == b.price
      && a.paymentCondition == b.paymentCondition
      && a.installments == b.installments
      && a.totalWithInterest == b.totalWithInterest
      && a.instagram == b.instagram
      && a.whatsapp == b.whatsapp
      && a.address == b.address
      && a.ctaText == b.ctaText
      && a.customCta == b.customCta
      && a.logo == b.logo
      && a.customProductImage == b.customProductImage
      && a.showPrice == b.showPrice
      && a.showContact == b.showContact
      && a.showAddress == b.showAddress
      && a.showCta == b.showCta
      && a.showLogo == b.showLogo
      && a.showMemory == b.showMemory
      && a.enableAnimations == b.enableAnimations
    ensures a == b
  {
  }

  /** Every key the patch gives takes the patch's value; every other key keeps its
      previous value. */
  lemma ApplyMerges(s: FlyerState, p: Patch)
    ensures forall k :: Given(p, k).Some? ==> Get(Apply(s, p), k) == Given(p, k).value
    ensures forall k :: Given(p, k).None? ==> Get(Apply(s, p), k) == Get(s, k)
  {
    forall k
      ensures Get(Apply(s, p), k) == Given(p, k).GetOr(Get(s, k))
    {
      if k.ThemeKey? || k.BrandKey? || k.ModelKey? || k.MemoryKey? || k.PriceKey? || k.PaymentConditionKey?
        || k.InstallmentsKey? || k.TotalWithInterestKey? || k.InstagramKey? || k.WhatsappKey? || k.AddressKey?
      {
        MergeProductAndContactKey(s, p, k);
      } else {
        MergeDisplayKey(s, p, k);
      }
    }
  }

  lemma MergeProductAndContactKey(s: FlyerState, p: Patch, k: Key)
    requires k.ThemeKey? || k.BrandKey? || k.ModelKey? || k.MemoryKey? || k.PriceKey? || k.PaymentConditionKey?
      || k.InstallmentsKey? || k.TotalWithInterestKey? || k.InstagramKey? || k.WhatsappKey? || k.AddressKey?
    ensures Get(Apply(s, p), k) == Given(p, k).GetOr(Get(s, k))
  {
    match k
    case ThemeKey =>
    case BrandKey =>
    case ModelKey =>
    case MemoryKey =>
    case PriceKey =>
    case PaymentConditionKey =>
    case InstallmentsKey =>
    case TotalWithInterestKey =>
    case InstagramKey =>
    case WhatsappKey =>
    case AddressKey =>
  }

  lemma MergeDisplayKey(s: FlyerState, p: Patch, k: Key)
    requires !(k.ThemeKey? || k.BrandKey? || k.ModelKey? || k.MemoryKey? || k.PriceKey? || k.PaymentConditionKey?
      || k.InstallmentsKey? || k.TotalWithInterestKey? || k.InstagramKey? || k.WhatsappKey? || k.AddressKey?)
    ensures Get(Apply(s, p), k) == Given(p, k).GetOr(Get(s, k))
  {
    match k
    case CtaTextKey =>
    case CustomCtaKey =>
    case LogoKey =>
    case CustomProductImageKey =>
    case ShowPriceKey =>
    case ShowContactKey =>
    case ShowAddressKey =>
    case ShowCtaKey =>
    case ShowLogoKey =>
    case ShowMemoryKey =>
    case EnableAnimationsKey =>
  }

  /** In a spread of two patches the later one wins on every key it gives. */
  lemma SpreadLaterWins(p: Patch, q: Patch)
    ensures forall k :: Given(Spread(p, q), k) == if Given(q, k).Some? then Given(q, k) else Given(p, k)
  {
    forall k
      ensures Given(Spread(p, q), k) == if Given(q, k).Some? then Given(q, k) else Given(p, k)
    {
      match k
      case ThemeKey =>
      case BrandKey =>
      case ModelKey =>
      case MemoryKey =>
      case PriceKey =>
      case PaymentConditionKey =>
      case InstallmentsKey =>
      case TotalWithInterestKey =>
      case InstagramKey =>
      case WhatsappKey =>
      case AddressKey =>
      case CtaTextKey =>
      case CustomCtaKey =>
      case LogoKey =>
      case CustomProductImageKey =>
      case ShowPriceKey =>
      case ShowContactKey =>
      case ShowAddressKey =>
      case ShowCtaKey =>
      case ShowLogoKey =>
      case ShowMemoryKey =>
      case EnableAnimationsKey =>
    }
  }

  /** Merging the same patch twice is merging it once. */
  lemma ApplyIdempotent(s: FlyerState, p: Patch)
    ensures Apply(Apply(s, p), p) == Apply(s, p)
  {
    ApplySequential(s, p, p);
    SpreadSelf(p);
  }

  /** Spreading a patch over itself gives the patch back. */
  lemma SpreadSelf(p: Patch)
    ensures Spread(p, p) == p
  {
  }

  /** One field of a spread: the later value if given, else the earlier, else the default. */
  lemma SpreadField<T>(a: Option<T>, b: Option<T>, d: T)
    ensures (if b.Some? then b else a).GetOr(d) == b.GetOr(a.GetOr(d))
  {
  }

  /** Two merges in a row are one merge of the spread of both patches. */
  lemma ApplySequential(s: FlyerState, p: Patch, q: Patch)
    ensures Apply(Apply(s, p), q) == Apply(s, Spread(p, q))
  {
    SequentialProductFields(s, p, q);
    SequentialDisplayFields(s, p, q);
    SameFields(Apply(Apply(s, p), q), Apply(s, Spread(p, q)));
  }

  lemma SequentialProductFields(s: FlyerState, p: Patch, q: Patch)
    ensures Apply(Apply(s, p), q).theme == Apply(s, Spread(p, q)).theme
    ensures Apply(Apply(s, p), q).brand == Apply(s, Spread(p, q)).brand
    ensures Apply(Apply(s, p), q).model == Apply(s, Spread(p, q)).model
    ensures Apply(Apply(s, p), q).memory == Apply(s, Spread(p, q)).memory
    ensures Apply(Apply(s, p), q).price == Apply(s, Spread(p, q)).price
    ensures Apply(Apply(s, p), q).paymentCondition == Apply(s, Spread(p, q)).paymentCondition
    ensures Apply(Apply(s, p), q).installments == Apply(s, Spread(p, q)).installments
    ensures Apply(Apply(s, p), q).totalWithInterest == Apply(s, Spread(p, q)).totalWithInterest
    ensures Apply(Apply(s, p), q).instagram == Apply(s, Spread(p, q)).instagram
    ensures Apply(Apply(s, p), q).whatsapp == Apply(s, Spread(p, q)).whatsapp
    ensures Apply(Apply(s, p), q).address == Apply(s, Spread(p, q)).address
  {
    SpreadField(p.theme, q.theme, s.theme);
    SpreadField(p.brand, q.brand, s.brand);
    SpreadField(p.model, q.model, s.model);
    SpreadField(p.memory, q.memory, s.memory);
    SpreadField(p.price, q.price, s.price);
    SpreadField(p.paymentCondition, q.paymentCondition, s.paymentCondition);
    SpreadField(p.installments, q.installments, s.installments);
    SpreadField(p.totalWithInterest, q.totalWithInterest, s.totalWithInterest);
    SpreadField(p.instagram, q.instagram, s.instagram);
    SpreadField(p.whatsapp, q.whatsapp, s.whatsapp);
    SpreadField(p.address, q.address, s.address);
  }

  lemma SequentialDisplayFields(s: FlyerState, p: Patch, q: Patch)
    ensures Apply(Apply(s, p), q).ctaText == Apply(s, Spread(p, q)).ctaText
    ensures Apply(Apply(s, p), q).customCta == Apply(s, Spread(p, q)).customCta
    ensures Apply(Apply(s, p), q).logo == Apply(s, Spread(p, q)).logo
    ensures Apply(Apply(s, p), q).customProductImage == Apply(s, Spread(p, q)).customProductImage
    ensures Apply(Apply(s, p), q).showPrice == Apply(s, Spread(p, q)).showPrice
    ensures Apply(Apply(s, p), q).showContact == Apply(s, Spread(p, q)).showContact
    ensures Apply(Apply(s, p), q).showAddress == Apply(s, Spread(p, q)).showAddress
    ensures Apply(Apply(s, p), q).showCta == Apply(s, Spread(p, q)).showCta
    ensures Apply(Apply(s, p), q).showLogo == Apply(s, Spread(p, q)).showLogo
    ensures Apply(Apply(s, p), q).showMemory == Apply(s, Spread(p, q)).showMemory
    ensures Apply(Apply(s, p), q).enableAnimations == Apply(s, Spread(p, q)).enableAnimations
  {
    SpreadField(p.ctaText, q.ctaText, s.ctaText);
    SpreadField(p.customCta, q.customCta, s.customCta);
    SpreadField(p.logo, q.logo, s.logo);
    SpreadField(p.customProductImage, q.customProductImage, s.customProductImage);
    SpreadField(p.showPrice, q.showPrice, s.showPrice);
    SpreadField(p.showContact, q.showContact, s.showContact);
    SpreadField(p.showAddress, q.showAddress, s.showAddress);
    SpreadField(p.showCta, q.showCta, s.showCta);
    SpreadField(p.showLogo, q.showLogo, s.showLogo);
    SpreadField(p.showMemory, q.showMemory, s.showMemory);
    SpreadField(p.enableAnimations, q.enableAnimations, s.enableAnimations);
  }

  /** On the keys both patches give, the later patch's value is the one that stays. */
  lemma LaterPatchWins(s: FlyerState, p: Patch, q: Patch)
    ensures forall k :: Given(p, k).Some? && Given(q, k).Some? ==>
      Get(Apply(Apply(s, p), q), k) == Given(q, k).value
  {
    ApplyMerges(Apply(s, p), q);
  }

  /** Patches merged in order, as the session receives them. */
  function ApplyAll(s: FlyerState, ps: seq<Patch>): FlyerState
    decreases |ps|
  {
    if ps == [] then s else ApplyAll(Apply(s, ps[0]), ps[1..])
  }

  /** A single patch merged through the sequence form. */
  lemma ApplyAllSingle(s: FlyerState, p: Patch)
    ensures ApplyAll(s, [p]) == Apply(s, p)
  {
    assert [p][1..] == [];
  }

  /** Merging two batches one after the other is merging their concatenation. */
  lemma {:induction false} ApplyAllConcat(s: FlyerState, a: seq<Patch>, b: seq<Patch>)
    ensures ApplyAll(s, a + b) == ApplyAll(ApplyAll(s, a), b)
    decreases |a|
  {
    if a == [] {
      assert a + b == b;
    } else {
      assert (a + b)[0] == a[0];
      assert (a + b)[1..] == a[1..] + b;
      ApplyAllConcat(Apply(s, a[0]), a[1..], b);
    }
  }

  /** No patch of `ps` carries field `k`. */
  predicate Untouched(ps: seq<Patch>, k: Key)
  {
    forall i :: 0 <= i < |ps| ==> Given(ps[i], k).None?
  }

  lemma UntouchedConcat(a: seq<Patch>, b: seq<Patch>, k: Key)
    requires Untouched(a, k) && Untouched(b, k)
    ensures Untouched(a + b, k)
  {
    forall i | 0 <= i < |a + b|
      ensures Given((a + b)[i], k).None?
    {
      if i < |a| {
        assert (a + b)[i] == a[i];
      } else {
        assert (a + b)[i] == b[i - |a|];
      }
    }
  }

  /** A field that no patch of the sequence carries keeps its value. */
  lemma {:induction false} UntouchedUnchanged(s: FlyerState, ps: seq<Patch>, k: Key)
    requires Untouched(ps, k)
    ensures Get(ApplyAll(s, ps), k) == Get(s, k)
    decreases |ps|
  {
    if ps != [] {
      ApplyMerges(s, ps[0]);
      assert Untouched(ps[1..], k) by {
        forall i | 0 <= i < |ps| - 1
          ensures Given(ps[1..][i], k).None?
        {
          assert ps[1..][i] == ps[i + 1];
        }
      }
      UntouchedUnchanged(Apply(s, ps[0]), ps[1..], k);
    }
  }
}
