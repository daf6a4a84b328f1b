/** The flat record a flyer is described by, and the state a session starts from. */
module Types {
  import opened Wrappers

  datatype ThemeType = BlackFriday | Christmas

  /** The string value of each theme tag; it keys the theme-logo table. */
  function ThemeTag(t: ThemeType): string
  {
    match t
    case BlackFriday => "black_friday"
    case Christmas => "christmas"
  }

  datatype Brand = Xiaomi | Apple

  /** The string value of each brand, shown in the brand select. */
  function BrandName(b: Brand): string
  {
    match b
    case Xiaomi => "Xiaomi"
    case Apple => "Apple"
  }

  /** One catalog entry: display name, product picture and the memory variants on offer. */
  datatype PhoneModelData = PhoneModelData(name: string, img: string, memorias: seq<string>)

  /** The whole configuration of one flyer. Prices are exact reals; `logo` and
      `customProductImage` are image data or absent. */
  datatype FlyerState = FlyerState(
    theme: ThemeType,
    brand: Brand,
    model: string,
    memory: string,
    price: real,
    paymentCondition: string,
    installments: int,
    totalWithInterest: real,
    instagram: string,
    whatsapp: string,
    address: string,
    ctaText: string,
    customCta: string,
    logo: Option<string>,
    customProductImage: Option<string>,
    showPrice: bool,
    showContact: bool,
    showAddress: bool,
    showCta: bool,
    showLogo: bool,
    showMemory: bool,
    enableAnimations: bool)

  const InitialState: FlyerState := FlyerState(
    theme := BlackFriday,
    brand := Xiaomi,
    model := "",
    memory := "",
    price := 1999.99,
    paymentCondition := "À VISTA",
    installments := 12,
    totalWithInterest := 2200.00,
    instagram := "@SuaLoja.imports",
    whatsapp := "(11) 99999-9999",
    address := "Rua das Ofertas, 123",
    ctaText := "Imperdível!",
    customCta := "",
    logo := None,
    customProductImage := None,
    showPrice := true,
    showContact := true,
    showAddress := true,
    showCta := true,
    showLogo := true,
    showMemory := true,
    enableAnimations := false)

  /** Each enumeration has exactly two values, and their string tags tell them apart. */
  lemma EnumerationsAreTwoValued()
    ensures forall t: ThemeType :: ThemeTag(t) == "black_friday" || ThemeTag(t) == "christmas"
    ensures forall b: Brand :: BrandName(b) == "Xiaomi" || BrandName(b) == "Apple"
    ensures forall t1, t2 :: ThemeTag(t1) == ThemeTag(t2) ==> t1 == t2
    ensures forall b1, b2 :: BrandName(b1) == BrandName(b2) ==> b1 == b2
  {
  }
}
