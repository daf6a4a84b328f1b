/** A concrete session, start to finish: the edits a user makes to advertise a phone
    and the flyer the composer draws for the resulting record. */
module Scenario {
  import opened Wrappers
  import opened Types
  import opened Catalog
  import opened Session
  import opened Preview
  import opened Controls

  /** Pick Xiaomi, then the Redmi Note 13, then type a cash price of 999. */
  const RedmiOffer: seq<Edit> := [SelectBrand(Xiaomi), SelectModel("Redmi Note 13"), TypePrice(999.0)]

  /** The expected record: the catalog's first memory variant selected, everything
      else as in the initial record. */
  const RedmiRecord: FlyerState :=
    InitialState.(brand := Xiaomi, model := "Redmi Note 13", memory := "128GB / 6GB RAM", price := 999.0)

  /** The session reaches exactly that record, and every edit is one the panel offers. */
  lemma RedmiOfferState()
    ensures AllOffered(InitialState, RedmiOffer)
    ensures Run(InitialState, RedmiOffer) == RedmiRecord
  {
    var s1 := InitialState.(brand := Xiaomi, model := "", memory := "");
    var s2 := s1.(model := "Redmi Note 13", memory := "128GB / 6GB RAM");
    var s3 := s2.(price := 999.0);
    ApplyAllSingle(InitialState, BrandPatch(Xiaomi));
    assert Step(InitialState, SelectBrand(Xiaomi)) == s1;
    assert Lookup(Xiaomi, "Redmi Note 13").Some?;
    ApplyAllSingle(s1, ModelPatch(Xiaomi, "Redmi Note 13"));
    assert Step(s1, SelectModel("Redmi Note 13")) == HandleModelChange(s1, "Redmi Note 13") == s2;
    ApplyAllSingle(s2, NoChange.(price := Some(999.0)));
    assert Step(s2, TypePrice(999.0)) == s3;
    assert RedmiOffer[1..][1..][1..] == [];
    assert Run(InitialState, RedmiOffer) == Run(s3, []);
  }

  /** The flyer for that record, once the product picture has loaded: Black Friday
      watermark, the catalog picture, the memory badge, the cash price with no
      installment lines, and the preset call to action centred under it. */
  lemma RedmiOfferFlyer()
    ensures Composable(RedmiRecord)
    ensures
      var f := Compose(RedmiRecord, Loaded, Pending);
      && f.watermark
      && f.hero == Product(Picture(
           "https://i.ibb.co/svwXmyXJ/1491f8f70ec78d5d5c35087c0fdb56c6-removebg-preview.png", false, true), false)
      && f.memoryBadge == Some("128GB / 6GB RAM")
      && f.productName == "Redmi Note 13"
      && f.price == Some(PriceBlock("À VISTA", Crimson, None, 999.0, None))
      && f.cta == Some(Cta("Imperdível!", Centered))
      && f.storeLogo.None?
  {
    CashConditions();
    assert ProductImage(RedmiRecord) == "https://i.ibb.co/svwXmyXJ/1491f8f70ec78d5d5c35087c0fdb56c6-removebg-preview.png";
  }
}
