/** The static tables the transitions and the composer read: phone catalog, theme
    logos, payment conditions and call-to-action labels. */
module Catalog {
  import opened Wrappers
  import opened Text
  import opened Types

  /** Brand, then model key, to the model's entry. */
  const PhoneModels: map<Brand, map<string, PhoneModelData>> := map[
    Xiaomi := map[
      "Poco X6 Pro" := PhoneModelData(
        "Poco X6 Pro",
        "https://i.ibb.co/PZ37ZQBh/56b51295abe5648063dfa24601641213-removebg-preview.png",
        ["256GB / 8GB RAM", "512GB / 12GB RAM"]),
      "Redmi Note 13" := PhoneModelData(
        "Redmi Note 13",
        "https://i.ibb.co/svwXmyXJ/1491f8f70ec78d5d5c35087c0fdb56c6-removebg-preview.png",
        ["128GB / 6GB RAM", "256GB / 8GB RAM"])
    ],
    Apple := map[
      "iPhone 13" := PhoneModelData(
        "iPhone 13",
        "https://i.ibb.co/Jqj927L/iphone-13-blue-select-2021-removebg-preview.png",
        ["128GB", "256GB"]),
      "iPhone 15 Pro" := PhoneModelData(
        "iPhone 15 Pro",
        "https://i.ibb.co/hWHPzXj/iphone-15-pro-finish-select-202309-natural-titanium-removebg-preview.png",
        ["128GB", "256GB", "512GB"])
    ]
  ]

  /** Theme tag to the logo shown in the flyer header. */
  const ThemeLogos: map<string, string> := map[
    "black_friday" := "https://i.ibb.co/RG4YVHqL/TECMAUTAS-Black-Friday-removebg-preview.png",
    "christmas" := "https://i.ibb.co/cc00HZNv/Adobe-Express-file-6.png"
  ]

  const PaymentConditions: seq<string> := ["À VISTA", "NO PIX", "NO BOLETO", "EM ATÉ 12X NO CARTÃO"]

  /** Call-to-action labels; no control of the panel offers them. */
  const CtaOptions: seq<string> := ["Imperdível!", "Estoque Limitado!", "Compre Agora!", "Chame no Zap!", "Personalizado"]

  /** The two tokens whose presence marks a payment condition as paid in installments. */
  const CardMarker: string := "CARTÃO"
  const BoletoMarker: string := "BOLETO"

  /** A condition is paid in installments when it mentions the card or the boleto marker.
      Both the preview and the installment fields of the panel use this one test. */
  predicate InstallmentBearing(condition: string)
  {
    Contains(condition, CardMarker) || Contains(condition, BoletoMarker)
  }

  /** `PHONE_MODELS[brand]?.[key]`: the entry, if the brand's catalog has that key. An
      entry found is named by its key, has a picture, and offers at least one memory
      variant, none twice. */
  function Lookup(b: Brand, key: string): (r: Option<PhoneModelData>)
    ensures r.Some? <==> b in PhoneModels && key in PhoneModels[b]
    ensures r.Some? ==> r.value == PhoneModels[b][key]
    ensures r.Some? ==> r.value.name == key && r.value.img != ""
    ensures r.Some? ==> |r.value.memorias| > 0 && Distinct(r.value.memorias)
  {
    CatalogFacts();
    if b in PhoneModels && key in PhoneModels[b] then Some(PhoneModels[b][key]) else None
  }

  /** The memory variants offered for a stored model name; none when the name is unknown. */
  function MemoryOptions(b: Brand, model: string): (r: seq<string>)
    ensures Lookup(b, model).Some? ==> r == Lookup(b, model).value.memorias
    ensures Lookup(b, model).None? ==> r == []
  {
    match Lookup(b, model)
    case Some(entry) => entry.memorias
    case None => []
  }

  /** The items of `xs` are pairwise distinct. */
  predicate Distinct(xs: seq<string>)
  {
    forall i, j :: 0 <= i < j < |xs| ==> xs[i] != xs[j]
  }

  /** The facts about the catalog the transitions rely on: every brand has a catalog,
      every key is its entry's name, every entry has a picture, and every memory list is
      non-empty and free of repeats. */
  ghost predicate CatalogWellFormed()
  {
    && (forall b: Brand :: b in PhoneModels)
    && (forall b, key :: b in PhoneModels && key in PhoneModels[b] ==>
          && PhoneModels[b][key].name == key
          && PhoneModels[b][key].img != ""
          && |PhoneModels[b][key].memorias| > 0
          && Distinct(PhoneModels[b][key].memorias))
  }

  lemma CatalogFacts()
    ensures CatalogWellFormed()
  {
    forall b: Brand
      ensures b in PhoneModels
    {
      match b
      case Xiaomi =>
      case Apple =>
    }
    forall b, key | b in PhoneModels && key in PhoneModels[b]
      ensures PhoneModels[b][key].name == key
      ensures PhoneModels[b][key].img != ""
      ensures |PhoneModels[b][key].memorias| > 0
      ensures Distinct(PhoneModels[b][key].memorias)
    {
      if b == Xiaomi {
        assert key == "Poco X6 Pro" || key == "Redmi Note 13";
      } else {
        assert key == "iPhone 13" || key == "iPhone 15 Pro";
      }
    }
  }

  /** Both themes have a header logo. */
  lemma ThemeLogosDefined()
    ensures forall t: ThemeType :: ThemeTag(t) in ThemeLogos
  {
  }

  /** Cash conditions: neither marker occurs. */
  lemma CashConditions()
    ensures !InstallmentBearing("À VISTA")
    ensures !InstallmentBearing("NO PIX")
  {
    MissingCharacter("À VISTA", CardMarker, 0);
    MissingCharacter("À VISTA", BoletoMarker, 0);
    MissingCharacter("NO PIX", CardMarker, 0);
    MissingCharacter("NO PIX", BoletoMarker, 0);
  }

  /** Installment conditions: the boleto marker at position 3, the card marker at position 14. */
  lemma InstallmentConditions()
    ensures InstallmentBearing("NO BOLETO")
    ensures InstallmentBearing("EM ATÉ 12X NO CARTÃO")
  {
    assert "NO BOLETO"[3..9] == BoletoMarker;
    FoundAt("NO BOLETO", BoletoMarker, 3);
    assert "EM ATÉ 12X NO CARTÃO"[14..20] == CardMarker;
    FoundAt("EM ATÉ 12X NO CARTÃO", CardMarker, 14);
  }

  /** Of the four conditions, exactly the boleto one and the card one are paid in installments. */
  lemma PaymentConditionKinds()
    ensures |PaymentConditions| == 4
    ensures forall c :: c in PaymentConditions ==>
      (InstallmentBearing(c) <==> c == "NO BOLETO" || c == "EM ATÉ 12X NO CARTÃO")
  {
    forall c | c in PaymentConditions
      ensures InstallmentBearing(c) <==> c == "NO BOLETO" || c == "EM ATÉ 12X NO CARTÃO"
    {
      CashConditions();
      InstallmentConditions();
    }
  }
}
