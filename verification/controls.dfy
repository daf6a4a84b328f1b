/** The control panel: each handler is a patch merged into the session state, some
    with coupling rules between fields, plus the export that switches animations off
    around the capture and back on afterwards. */
module Controls {
  import opened Wrappers
  import opened Text
  import opened Types
  import opened Catalog
  import opened Session
  import opened Preview

  // ---------------------------------------------------------------------------
  // Product selection.

  /** The stored memory is empty or one of the variants of the stored model. */
  predicate MemoryConsistent(s: FlyerState)
  {
    s.memory == "" || s.memory in MemoryOptions(s.brand, s.model)
  }

  /** The patch `handleBrandChange` sends: the new brand, with model and memory cleared. */
  function BrandPatch(b: Brand): Patch
  {
    NoChange.(brand := Some(b), model := Some(""), memory := Some(""))
  }

  /** The patch `handleModelChange` sends: a key of the brand's catalog selects that
      model (stored under its entry's name) and its first memory variant; the empty key
      or an unknown one clears both. */
  function ModelPatch(b: Brand, key: string): Patch
  {
    var entry := Lookup(b, key);
    if key != "" && entry.Some? then
      NoChange.(model := Some(entry.value.name), memory := Some(entry.value.memorias[0]))
    else
      NoChange.(model := Some(""), memory := Some(""))
  }

  /** The patch the memory select sends. */
  function MemoryPatch(m: string): Patch
  {
    NoChange.(memory := Some(m))
  }

  /** The patch the remove-photo button sends. */
  const RemovePhotoPatch: Patch := NoChange.(customProductImage := Some(None))

  /** A brand change: the new brand, model and memory cleared, nothing else changes. */
  function HandleBrandChange(s: FlyerState, b: Brand): (r: FlyerState)
    ensures r == s.(brand := b, model := "", memory := "")
    ensures MemoryConsistent(r)
  {
    BrandPatchUpdates(s, b);
    Apply(s, BrandPatch(b))
  }

  lemma BrandPatchUpdates(s: FlyerState, b: Brand)
    ensures Apply(s, BrandPatch(b)) == s.(brand := b, model := "", memory := "")
  {
  }

  /** A model change: a catalog key of the current brand is stored as the model (the
      entry's name is its key) with the first variant; otherwise both are cleared.
      Nothing else changes. */
  function HandleModelChange(s: FlyerState, key: string): (r: FlyerState)
    ensures key != "" && Lookup(s.brand, key).Some? ==>
      |Lookup(s.brand, key).value.memorias| > 0 &&
      r == s.(model := key, memory := Lookup(s.brand, key).value.memorias[0])
    ensures key == "" || Lookup(s.brand, key).None? ==> r == s.(model := "", memory := "")
  {
    var entry := Lookup(s.brand, key);
    if key != "" && entry.Some? then
      ModelPatchUpdates(s, entry.value.name, entry.value.memorias[0]);
      Apply(s, ModelPatch(s.brand, key))
    else
      ModelPatchUpdates(s, "", "");
      Apply(s, ModelPatch(s.brand, key))
  }

  lemma ModelPatchUpdates(s: FlyerState, model: string, memory: string)
    ensures Apply(s, NoChange.(model := Some(model), memory := Some(memory))) ==
      s.(model := model, memory := memory)
  {
  }

  /** After a model change the stored memory is a variant of the stored model. */
  lemma ModelChangeKeepsMemoryConsistent(s: FlyerState, key: string)
    ensures MemoryConsistent(HandleModelChange(s, key))
    ensures HandleModelChange(s, key).model != "" ==>
      HandleModelChange(s, key).memory in MemoryOptions(s.brand, HandleModelChange(s, key).model)
  {
  }

  /** Without a custom photo, a brand change leaves the flyer with the "MODELO"
      placeholder name, the no-image placeholder and no memory badge. */
  lemma BrandChangeResetsProduct(s: FlyerState, b: Brand, product: LoadState, logo: LoadState)
    requires Composable(s)
    requires s.customProductImage.None? || s.customProductImage.value == ""
    ensures Composable(HandleBrandChange(s, b))
    ensures
      var f := Compose(HandleBrandChange(s, b), product, logo);
      f.productName == "MODELO" && f.hero.Placeholder? && f.memoryBadge.None?
  {
    assert Lookup(b, "").None?;
  }

  /** Without a custom photo, choosing a catalog model puts that model's catalog picture
      and name on the flyer. */
  lemma ModelChangeShowsCatalogPicture(s: FlyerState, key: string, product: LoadState, logo: LoadState)
    requires Composable(s) && key != "" && Lookup(s.brand, key).Some?
    requires s.customProductImage.None? || s.customProductImage.value == ""
    ensures Composable(HandleModelChange(s, key))
    ensures
      var f := Compose(HandleModelChange(s, key), product, logo);
      && f.productName == key
      && f.hero.Product? && f.hero.picture.src == Lookup(s.brand, key).value.img
  {
  }

  /** The memory select: the chosen variant, nothing else. */
  function HandleMemoryChange(s: FlyerState, m: string): (r: FlyerState)
    ensures r == s.(memory := m)
    ensures m in MemoryOptions(s.brand, s.model) ==> MemoryConsistent(r)
  {
    Apply(s, MemoryPatch(m))
  }

  /** The variants the memory select offers: none until a model is chosen. */
  function OfferedMemories(s: FlyerState): (r: seq<string>)
    ensures forall m :: m in r ==> s.model != "" && m in MemoryOptions(s.brand, s.model)
    ensures s.model != "" ==> r == MemoryOptions(s.brand, s.model)
  {
    if s.model == "" then [] else MemoryOptions(s.brand, s.model)
  }

  /** The remove-photo button: the custom photo is dropped, so the flyer falls back to
      the catalog picture of the selected model. */
  function HandleRemovePhoto(s: FlyerState): (r: FlyerState)
    ensures r == s.(customProductImage := None)
    ensures ProductImage(r) == (match Lookup(s.brand, s.model) case Some(entry) => entry.img case None => "")
  {
    Apply(s, RemovePhotoPatch)
  }

  // ---------------------------------------------------------------------------
  // Pricing inputs.

  /** The installment counts the select offers: `[...Array(17)].map((_, i) => i + 2)`. */
  function InstallmentChoices(): seq<int>
  {
    seq(17, i => i + 2)
  }

  /** The selectable counts are exactly 2 to 18. */
  lemma InstallmentChoicesRange()
    ensures |InstallmentChoices()| == 17
    ensures forall n :: n in InstallmentChoices() <==> 2 <= n <= 18
  {
    forall n | 2 <= n <= 18
      ensures n in InstallmentChoices()
    {
      assert InstallmentChoices()[n - 2] == n;
    }
  }

  /** The installment count and total fields are shown for exactly the conditions the
      preview treats as installment-bearing. */
  predicate InstallmentFieldsShown(s: FlyerState)
  {
    InstallmentBearing(s.paymentCondition)
  }

  /** The card marker as the panel's visibility test reads, double-encoded: seven characters. */
  const GarbledCardMarker: string := "CARTÃƒO"

  /** The panel's visibility test with the marker as it reads. */
  predicate InstallmentFieldsShownAsWritten(s: FlyerState)
  {
    Contains(s.paymentCondition, GarbledCardMarker) || Contains(s.paymentCondition, BoletoMarker)
  }

  /** With the double-encoded marker the card condition hides the installment fields
      while the preview still prices it in installments. */
  lemma GarbledMarkerHidesCardFields(s: FlyerState)
    requires s.paymentCondition == "EM ATÉ 12X NO CARTÃO"
    ensures !InstallmentFieldsShownAsWritten(s)
    ensures InstallmentBearing(s.paymentCondition)
  {
    CardConditionLacksGarbledMarker();
    CardConditionLacksBoletoMarker();
    InstallmentConditions();
  }

  /** The card condition has no 'ƒ', so it cannot hold the garbled marker. */
  lemma CardConditionLacksGarbledMarker()
    ensures !Contains("EM ATÉ 12X NO CARTÃO", GarbledCardMarker)
  {
    assert GarbledCardMarker[5] == 'ƒ';
    NoSuchCharacter('ƒ');
    MissingCharacter("EM ATÉ 12X NO CARTÃO", GarbledCardMarker, 5);
  }

  /** The card condition has no 'B', so it cannot hold the boleto marker. */
  lemma CardConditionLacksBoletoMarker()
    ensures !Contains("EM ATÉ 12X NO CARTÃO", BoletoMarker)
  {
    assert BoletoMarker[0] == 'B';
    NoSuchCharacter('B');
    MissingCharacter("EM ATÉ 12X NO CARTÃO", BoletoMarker, 0);
  }

  lemma NoSuchCharacter(ch: char)
    requires ch == 'ƒ' || ch == 'B'
    ensures ch !in "EM ATÉ 12X NO CARTÃO"
  {
  }

  /** With the shared marker the fields appear exactly when the preview shows the
      installment count. */
  lemma InstallmentFieldsMatchPreview(s: FlyerState)
    requires Composable(s) && s.showPrice
    ensures InstallmentFieldsShown(s) <==> PriceRegion(s).value.installmentPrefix.Some?
  {
  }

  /** Of the listed conditions, the fields appear for exactly the boleto and card ones,
      whether or not the price is shown. */
  lemma InstallmentFieldsForListedConditions(s: FlyerState)
    requires s.paymentCondition in PaymentConditions
    ensures InstallmentFieldsShown(s) <==> s.paymentCondition == "NO BOLETO" || s.paymentCondition == "EM ATÉ 12X NO CARTÃO"
  {
    PaymentConditionKinds();
  }

  // ---------------------------------------------------------------------------
  // Export.

  datatype ExportOutcome = NothingToCapture | Downloaded | Alerted

  /** What an export does: the patches sent before the capture, the state the capture
      sees, the patches sent in `finally`, and how it ends. */
  datatype ExportRun = ExportRun(
    beforeCapture: seq<Patch>,
    captured: Option<FlyerState>,
    afterCapture: seq<Patch>,
    outcome: ExportOutcome)

  const AnimationsOff: Patch := NoChange.(enableAnimations := Some(false))
  const AnimationsOn: Patch := NoChange.(enableAnimations := Some(true))

  /** Each animation patch sets the flag and nothing else. */
  lemma AnimationPatches(s: FlyerState)
    ensures Apply(s, AnimationsOff) == s.(enableAnimations := false)
    ensures Apply(s, AnimationsOn) == s.(enableAnimations := true)
  {
  }

  /** `handleExport`: with no preview element nothing happens; otherwise animations
      that were on are switched off for the capture, so the capture sees the state with
      animations off; animations that were off are never touched. */
  function HandleExport(s: FlyerState, previewMounted: bool, captureSucceeds: bool): (run: ExportRun)
    ensures !previewMounted ==> run == ExportRun([], None, [], NothingToCapture)
    ensures previewMounted ==> run.captured == Some(s.(enableAnimations := false))
    ensures previewMounted ==> run.captured == Some(ApplyAll(s, run.beforeCapture))
    ensures previewMounted && s.enableAnimations ==>
      run.beforeCapture == [AnimationsOff] && run.afterCapture == [AnimationsOn]
    ensures !s.enableAnimations ==> run.beforeCapture == [] && run.afterCapture == []
    ensures run.outcome == Downloaded <==> previewMounted && captureSucceeds
    ensures run.outcome == Alerted <==> previewMounted && !captureSucceeds
  {
    if !previewMounted then
      ExportRun([], None, [], NothingToCapture)
    else
      var before := if s.enableAnimations then [AnimationsOff] else [];
      var after := if s.enableAnimations then [AnimationsOn] else [];
      AnimationPatches(s);
      ApplyAllSingle(s, AnimationsOff);
      ExportRun(before, Some(ApplyAll(s, before)), after, if captureSucceeds then Downloaded else Alerted)
  }

  /** The `finally` patches undo the ones sent before the capture, however it ended:
      the session is back where it was. */
  lemma ExportRestores(s: FlyerState, previewMounted: bool, captureSucceeds: bool)
    ensures ApplyAll(ApplyAll(s, HandleExport(s, previewMounted, captureSucceeds).beforeCapture),
                     HandleExport(s, previewMounted, captureSucceeds).afterCapture) == s
    ensures HandleExport(s, previewMounted, true).afterCapture == HandleExport(s, previewMounted, false).afterCapture
  {
    var run := HandleExport(s, previewMounted, captureSucceeds);
    if previewMounted && s.enableAnimations {
      AnimationPatches(s);
      AnimationPatches(s.(enableAnimations := false));
      ApplyAllSingle(s, AnimationsOff);
      ApplyAllSingle(s.(enableAnimations := false), AnimationsOn);
    }
  }

  // ---------------------------------------------------------------------------
  // Caption request.

  /** What the caption button sends to the text generator. */
  datatype CaptionRequest = CaptionRequest(productName: string, price: real, cta: string)

  /** The caption button is disabled until a model is chosen; its CTA label follows the
      same rule as the flyer's. */
  function CaptionFor(s: FlyerState): (r: Option<CaptionRequest>)
    ensures r.Some? <==> s.model != ""
    ensures r.Some? ==> r.value.productName == s.model && r.value.price == s.price
    ensures r.Some? && s.customCta != "" ==> r.value.cta == s.customCta
    ensures r.Some? && s.customCta == "" ==> r.value.cta == s.ctaText
  {
    if s.model == "" then None else Some(CaptionRequest(s.model, s.price, CtaLabel(s)))
  }

  /** The caption asks about the product the flyer names, at the cash price, with the
      very label the flyer's call to action shows. */
  lemma CaptionMatchesFlyer(s: FlyerState, product: LoadState, logo: LoadState)
    requires Composable(s) && CaptionFor(s).Some?
    ensures CaptionFor(s).value.productName == Compose(s, product, logo).productName
    ensures CaptionFor(s).value.price == s.price
    ensures s.showCta ==>
      Compose(s, product, logo).cta.Some? && Compose(s, product, logo).cta.value.text == CaptionFor(s).value.cta
  {
    ComposeLayers(s, product, logo);
  }

  // ---------------------------------------------------------------------------
  // The session: every edit the panel can make, from the initial state on.

  datatype Toggle = PriceToggle | ContactToggle | AddressToggle | CtaToggle | AnimationToggle

  datatype Edit =
    | SelectTheme(theme: ThemeType)
    | SelectBrand(brand: Brand)
    | SelectModel(key: string)
    | SelectMemory(memory: string)
    | UploadProductImage(result: Option<string>)
    | RemoveProductImage
    | TypePrice(price: real)
    | SelectCondition(condition: string)
    | SelectInstallments(count: int)
    | TypeTotal(total: real)
    | TypeInstagram(handle: string)
    | TypeWhatsapp(phone: string)
    | TypeAddress(address: string)
    | UploadLogo(result: Option<string>)
    | Check(toggle: Toggle, on: bool)
    | Export(previewMounted: bool, captureSucceeds: bool)

  /** The field each checkbox drives. */
  function ToggleKey(t: Toggle): Key
  {
    match t
    case PriceToggle => ShowPriceKey
    case ContactToggle => ShowContactKey
    case AddressToggle => ShowAddressKey
    case CtaToggle => ShowCtaKey
    case AnimationToggle => EnableAnimationsKey
  }

  function TogglePatch(t: Toggle, on: bool): Patch
  {
    match t
    case PriceToggle => NoChange.(showPrice := Some(on))
    case ContactToggle => NoChange.(showContact := Some(on))
    case AddressToggle => NoChange.(showAddress := Some(on))
    case CtaToggle => NoChange.(showCta := Some(on))
    case AnimationToggle => NoChange.(enableAnimations := Some(on))
  }

  /** The patches the panel sends for one edit, in order. An upload carries what its
      reader's `onloadend` found: the data URL, or nothing when the read failed
      (`reader.result` is null then, and the field is cleared). */
  function EditPatches(s: FlyerState, e: Edit): seq<Patch>
  {
    match e
    case SelectTheme(t) => [NoChange.(theme := Some(t))]
    case SelectBrand(b) => [BrandPatch(b)]
    case SelectModel(key) => [ModelPatch(s.brand, key)]
    case SelectMemory(m) => [MemoryPatch(m)]
    case UploadProductImage(result) => [NoChange.(customProductImage := Some(result))]
    case RemoveProductImage => [RemovePhotoPatch]
    case TypePrice(x) => [NoChange.(price := Some(x))]
    case SelectCondition(c) => [NoChange.(paymentCondition := Some(c))]
    case SelectInstallments(n) => [NoChange.(installments := Some(n))]
    case TypeTotal(x) => [NoChange.(totalWithInterest := Some(x))]
    case TypeInstagram(h) => [NoChange.(instagram := Some(h))]
    case TypeWhatsapp(w) => [NoChange.(whatsapp := Some(w))]
    case TypeAddress(a) => [NoChange.(address := Some(a))]
    case UploadLogo(result) => [NoChange.(logo := Some(result))]
    case Check(t, on) => [TogglePatch(t, on)]
    case Export(mounted, ok) =>
      var run := HandleExport(s, mounted, ok);
      run.beforeCapture + run.afterCapture
  }

  /** The state after one edit: its patches merged in order. */
  function Step(s: FlyerState, e: Edit): FlyerState
  {
    ApplyAll(s, EditPatches(s, e))
  }

  /** The fields each edit is meant to write, read off the handlers' signatures
      independently of the patches they build. */
  function Touched(e: Edit): set<Key>
  {
    match e
    case SelectTheme(_) => {ThemeKey}
    case SelectBrand(_) => {BrandKey, ModelKey, MemoryKey}
    case SelectModel(_) => {ModelKey, MemoryKey}
    case SelectMemory(_) => {MemoryKey}
    case UploadProductImage(_) => {CustomProductImageKey}
    case RemoveProductImage => {CustomProductImageKey}
    case TypePrice(_) => {PriceKey}
    case SelectCondition(_) => {PaymentConditionKey}
    case SelectInstallments(_) => {InstallmentsKey}
    case TypeTotal(_) => {TotalWithInterestKey}
    case TypeInstagram(_) => {InstagramKey}
    case TypeWhatsapp(_) => {WhatsappKey}
    case TypeAddress(_) => {AddressKey}
    case UploadLogo(_) => {LogoKey}
    case Check(t, _) => {ToggleKey(t)}
    case Export(_, _) => {EnableAnimationsKey}
  }

  /** No patch an edit sends carries a field outside the edit's declared fields. */
  lemma EditStaysWithin(s: FlyerState, e: Edit, k: Key)
    requires k !in Touched(e)
    ensures Untouched(EditPatches(s, e), k)
  {
    if e.Check? {
      ToggleStaysWithin(e.toggle, e.on, k);
    } else if e.Export? {
      var run := HandleExport(s, e.previewMounted, e.captureSucceeds);
      ExportStaysWithin(s, e.previewMounted, e.captureSucceeds, k);
      UntouchedConcat(run.beforeCapture, run.afterCapture, k);
    } else if e.SelectTheme? || e.SelectBrand? || e.SelectModel? || e.SelectMemory? {
      SelectionStaysWithin(s, e, k);
    } else if e.UploadProductImage? || e.RemoveProductImage? || e.TypePrice? || e.SelectCondition? {
      PictureAndPriceStaysWithin(s, e, k);
    } else {
      InputStaysWithin(s, e, k);
    }
  }

  lemma SelectionStaysWithin(s: FlyerState, e: Edit, k: Key)
    requires e.SelectTheme? || e.SelectBrand? || e.SelectModel? || e.SelectMemory?
    requires k !in Touched(e)
    ensures Untouched(EditPatches(s, e), k)
  {
  }

  lemma PictureAndPriceStaysWithin(s: FlyerState, e: Edit, k: Key)
    requires e.UploadProductImage? || e.RemoveProductImage? || e.TypePrice? || e.SelectCondition?
    requires k !in Touched(e)
    ensures Untouched(EditPatches(s, e), k)
  {
  }

  lemma InputStaysWithin(s: FlyerState, e: Edit, k: Key)
    requires e.SelectInstallments? || e.TypeTotal? || e.TypeInstagram? || e.TypeWhatsapp? || e.TypeAddress? || e.UploadLogo?
    requires k !in Touched(e)
    ensures Untouched(EditPatches(s, e), k)
  {
  }

  /** A checkbox's patch carries its own flag only. */
  lemma ToggleStaysWithin(t: Toggle, on: bool, k: Key)
    requires k != ToggleKey(t)
    ensures Given(TogglePatch(t, on), k).None?
  {
    match t
    case PriceToggle =>
    case ContactToggle =>
    case AddressToggle =>
    case CtaToggle =>
    case AnimationToggle =>
  }

  /** The export's patches carry the animation flag only. */
  lemma ExportStaysWithin(s: FlyerState, previewMounted: bool, captureSucceeds: bool, k: Key)
    requires k != EnableAnimationsKey
    ensures Untouched(HandleExport(s, previewMounted, captureSucceeds).beforeCapture, k)
    ensures Untouched(HandleExport(s, previewMounted, captureSucceeds).afterCapture, k)
  {
    assert Given(AnimationsOff, k).None? && Given(AnimationsOn, k).None?;
  }

  /** An edit leaves every field outside its declared fields as it was. */
  lemma StepFrame(s: FlyerState, e: Edit, k: Key)
    requires k !in Touched(e)
    ensures Get(Step(s, e), k) == Get(s, k)
  {
    EditStaysWithin(s, e, k);
    UntouchedUnchanged(s, EditPatches(s, e), k);
  }

  /** The product edits are the handlers above, run through the merge. */
  lemma StepIsHandler(s: FlyerState, e: Edit)
    requires e.SelectBrand? || e.SelectModel? || e.SelectMemory? || e.RemoveProductImage?
    ensures e.SelectBrand? ==> Step(s, e) == HandleBrandChange(s, e.brand)
    ensures e.SelectModel? ==> Step(s, e) == HandleModelChange(s, e.key)
    ensures e.SelectMemory? ==> Step(s, e) == HandleMemoryChange(s, e.memory)
    ensures e.RemoveProductImage? ==> Step(s, e) == HandleRemovePhoto(s)
  {
    ApplyAllSingle(s, EditPatches(s, e)[0]);
  }

  /** Each input writes the value it carries into its field. */
  lemma StepWritesInput(s: FlyerState, e: Edit)
    ensures e.SelectTheme? ==> Step(s, e).theme == e.theme
    ensures e.UploadProductImage? ==> Step(s, e).customProductImage == e.result
    ensures e.TypePrice? ==> Step(s, e).price == e.price
    ensures e.SelectCondition? ==> Step(s, e).paymentCondition == e.condition
    ensures e.SelectInstallments? ==> Step(s, e).installments == e.count
    ensures e.TypeTotal? ==> Step(s, e).totalWithInterest == e.total
    ensures e.TypeInstagram? ==> Step(s, e).instagram == e.handle
    ensures e.TypeWhatsapp? ==> Step(s, e).whatsapp == e.phone
    ensures e.TypeAddress? ==> Step(s, e).address == e.address
    ensures e.UploadLogo? ==> Step(s, e).logo == e.result
  {
    if !e.Export? {
      ApplyAllSingle(s, EditPatches(s, e)[0]);
    }
  }

  /** A checkbox sets its flag to the state it was clicked into. */
  lemma StepWritesToggle(s: FlyerState, t: Toggle, on: bool)
    ensures Get(Step(s, Check(t, on)), ToggleKey(t)) == FlagVal(on)
  {
    assert EditPatches(s, Check(t, on)) == [TogglePatch(t, on)];
    ApplyAllSingle(s, TogglePatch(t, on));
  }

  /** An export, whatever its outcome, leaves the session where it was. */
  lemma ExportStepRestores(s: FlyerState, previewMounted: bool, captureSucceeds: bool)
    ensures Step(s, Export(previewMounted, captureSucceeds)) == s
  {
    var run := HandleExport(s, previewMounted, captureSucceeds);
    assert EditPatches(s, Export(previewMounted, captureSucceeds)) == run.beforeCapture + run.afterCapture;
    ApplyAllConcat(s, run.beforeCapture, run.afterCapture);
    ExportRestores(s, previewMounted, captureSucceeds);
  }

  /** The edits the panel can emit in state `s`: selects only send their options, the
      memory select is disabled until a model is chosen, the remove button only exists
      while a photo is set, and the installment inputs only while they are shown. */
  predicate Offered(s: FlyerState, e: Edit)
  {
    match e
    case SelectModel(key) => key == "" || Lookup(s.brand, key).Some?
    case SelectMemory(m) => m in OfferedMemories(s)
    case RemoveProductImage => s.customProductImage.Some? && s.customProductImage.value != ""
    case SelectCondition(c) => c in PaymentConditions
    case SelectInstallments(n) => InstallmentFieldsShown(s) && n in InstallmentChoices()
    case TypeTotal(_) => InstallmentFieldsShown(s)
    case _ => true
  }

  function Run(s: FlyerState, es: seq<Edit>): FlyerState
    decreases |es|
  {
    if es == [] then s else Run(Step(s, es[0]), es[1..])
  }

  /** Every edit of `es` is offered in the state it is applied to. */
  predicate AllOffered(s: FlyerState, es: seq<Edit>)
    decreases |es|
  {
    es == [] || (Offered(s, es[0]) && AllOffered(Step(s, es[0]), es[1..]))
  }

  /** The invariant of a session: memory consistent with the model, an installment
      count the select offers, and a listed payment condition. */
  predicate Consistent(s: FlyerState)
  {
    && MemoryConsistent(s)
    && (s.model == "" || Lookup(s.brand, s.model).Some?)
    && 2 <= s.installments <= 18
    && s.paymentCondition in PaymentConditions
  }

  /** The initial record: no model and no memory, 12 installments, a cash condition from
      the list, no logo and no photo (so no product picture), animations off. */
  lemma InitialStateFacts()
    ensures Consistent(InitialState)
    ensures InitialState.installments in InstallmentChoices()
    ensures InitialState.ctaText == CtaOptions[0]
    ensures !InstallmentBearing(InitialState.paymentCondition)
    ensures ProductImage(InitialState) == "" && LogoUrl(InitialState).None?
    ensures HeroLayer(InitialState, Pending).Placeholder?
    ensures !InitialState.enableAnimations
  {
    InstallmentChoicesRange();
    CashConditions();
    assert Lookup(Xiaomi, "").None?;
  }

  /** An offered edit keeps the session invariant. */
  lemma StepKeepsConsistent(s: FlyerState, e: Edit)
    requires Consistent(s) && Offered(s, e)
    ensures Consistent(Step(s, e))
  {
    match e
    case SelectBrand(b) => BrandStepConsistent(s, b);
    case SelectModel(key) => ModelStepConsistent(s, key);
    case SelectMemory(m) => MemoryStepConsistent(s, m);
    case SelectCondition(c) => ConditionStepConsistent(s, c);
    case SelectInstallments(n) => InstallmentsStepConsistent(s, n);
    case _ =>
      OtherEditsKeepSelection(s, e);
      ConsistentFrame(s, Step(s, e));
  }

  lemma BrandStepConsistent(s: FlyerState, b: Brand)
    requires Consistent(s)
    ensures Consistent(Step(s, SelectBrand(b)))
  {
    ApplyAllSingle(s, BrandPatch(b));
    assert Step(s, SelectBrand(b)) == HandleBrandChange(s, b);
  }

  lemma ModelStepConsistent(s: FlyerState, key: string)
    requires Consistent(s)
    ensures Consistent(Step(s, SelectModel(key)))
  {
    ApplyAllSingle(s, ModelPatch(s.brand, key));
    assert Step(s, SelectModel(key)) == HandleModelChange(s, key);
    ModelChangeKeepsMemoryConsistent(s, key);
  }

  lemma MemoryStepConsistent(s: FlyerState, m: string)
    requires Consistent(s) && m in OfferedMemories(s)
    ensures Consistent(Step(s, SelectMemory(m)))
  {
    ApplyAllSingle(s, MemoryPatch(m));
    assert Step(s, SelectMemory(m)) == HandleMemoryChange(s, m);
  }

  lemma ConditionStepConsistent(s: FlyerState, c: string)
    requires Consistent(s) && c in PaymentConditions
    ensures Consistent(Step(s, SelectCondition(c)))
  {
    ApplyAllSingle(s, NoChange.(paymentCondition := Some(c)));
  }

  lemma InstallmentsStepConsistent(s: FlyerState, n: int)
    requires Consistent(s) && n in InstallmentChoices()
    ensures Consistent(Step(s, SelectInstallments(n)))
  {
    ApplyAllSingle(s, NoChange.(installments := Some(n)));
    InstallmentChoicesRange();
  }

  /** The fields the session invariant reads. */
  const SelectionKeys: set<Key> := {BrandKey, ModelKey, MemoryKey, InstallmentsKey, PaymentConditionKey}

  /** The invariant reads only the product selection and the payment inputs. */
  lemma ConsistentFrame(s: FlyerState, t: FlyerState)
    requires Consistent(s)
    requires forall k :: k in SelectionKeys ==> Get(t, k) == Get(s, k)
    ensures Consistent(t)
  {
    assert Get(t, BrandKey) == Get(s, BrandKey) && Get(t, ModelKey) == Get(s, ModelKey);
    assert Get(t, MemoryKey) == Get(s, MemoryKey) && Get(t, InstallmentsKey) == Get(s, InstallmentsKey);
    assert Get(t, PaymentConditionKey) == Get(s, PaymentConditionKey);
  }

  /** Edits other than the five selects leave the selection and payment inputs alone. */
  lemma OtherEditsKeepSelection(s: FlyerState, e: Edit)
    requires !(e.SelectBrand? || e.SelectModel? || e.SelectMemory? || e.SelectCondition? || e.SelectInstallments?)
    ensures forall k :: k in SelectionKeys ==> Get(Step(s, e), k) == Get(s, k)
  {
    forall k | k in SelectionKeys
      ensures Get(Step(s, e), k) == Get(s, k)
    {
      StepFrame(s, e, k);
    }
  }

  lemma {:induction false} RunKeepsConsistent(s: FlyerState, es: seq<Edit>)
    requires Consistent(s) && AllOffered(s, es)
    ensures Consistent(Run(s, es))
    decreases |es|
  {
    if es != [] {
      StepKeepsConsistent(s, es[0]);
      RunKeepsConsistent(Step(s, es[0]), es[1..]);
    }
  }

  /** Every state the panel can reach from the initial one is consistent, so the
      preview's division by the installment count is always defined. */
  lemma SessionConsistent(es: seq<Edit>)
    requires AllOffered(InitialState, es)
    ensures Consistent(Run(InitialState, es))
    ensures Composable(Run(InitialState, es))
  {
    InitialStateFacts();
    RunKeepsConsistent(InitialState, es);
  }

  /** The fields no control of the panel writes: the logo and memory-badge toggles and
      the two call-to-action texts. */
  const FixedKeys: set<Key> := {ShowLogoKey, ShowMemoryKey, CtaTextKey, CustomCtaKey}

  /** No control edits the logo and memory-badge toggles or the call-to-action texts. */
  lemma PanelLeavesFixedFields(s: FlyerState, e: Edit)
    ensures forall k :: k in FixedKeys ==> Get(Step(s, e), k) == Get(s, k)
  {
    forall k | k in FixedKeys
      ensures Get(Step(s, e), k) == Get(s, k)
    {
      StepFrame(s, e, k);
    }
  }
}
