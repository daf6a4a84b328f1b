# Studio flyer composer — a Dafny model

The application builds a phone-offer flyer for social media. It has one flat state record, `FlyerState`. The control panel edits that record by emitting partial records. The app merges each partial record into the state with `{ ...prev, ...patch }`. The preview composes the flyer from the record and a small phone catalog. The theme decides the backdrop. The payment condition decides whether a single price or an installment price is shown. A set of `show*` flags decides which elements appear.

The model has these modules:

- `Types`: the record, the two enumerations and the initial state.
- `Catalog`: the phone catalog, theme logos, payment conditions and CTA options. It also holds the installment rule, "the condition contains `CARTÃO` or `BOLETO`". `Catalog.CardMarker` is the one marker for cards, and the panel and the preview both use it.
- `Session`: partial records (`Patch`) and the spread merge. Merges are stated field by field through a key view (`Key`, `Get`, `Given`).
- `Preview`: the composer. It turns a record plus the load state of the two image slots into a `Flyer` value with layers. `Flyer` lists what is drawn and in which layout mode.
- `Controls`: the panel's editing handlers as patch producers. This covers export, the caption request and the session invariant over any run of offered edits.
- `Scenario`: one concrete session, from the initial record to a composed flyer.
- `Text`: substring search, which `includes` relies on.
- `Wrappers`: `Option`.

## Model

| member | source | states |
|---|---|---|
| Session.ApplyMerges | App.tsx:12-14 | After a merge, every field the partial record gives holds the given value, and every other field keeps its old value |
| Session.LaterPatchWins | App.tsx:13 | When two partial records both give a field, the later one's value survives |
| Session.ApplySequential | App.tsx:12-14 | Merging two partial records one after the other equals merging their spread `{ ...p, ...q }` once |
| Session.SpreadLaterWins | App.tsx:13 | In a spread of two partial records, each field comes from the second when it gives it, and from the first otherwise |
| Session.ApplyIdempotent | App.tsx:12-14 | Merging the same partial record twice equals merging it once |
| Session.ApplyAllConcat | App.tsx:12-14 | Merging a list of partial records in order composes: merging `a + b` is merging `a`, then `b` |
| Session.UntouchedUnchanged | App.tsx:12-14 | A field that no partial record of a list gives keeps its value through the whole list |
| Types.EnumerationsAreTwoValued | types.ts:1-9 | Each enumeration has exactly two values, and their string tags are distinct |
| Catalog.Lookup | constants.ts:3-28 | A brand/model lookup succeeds exactly when the model key is listed under the brand, and then returns that entry. An entry found is named by its key, has a picture, and offers a non-empty list of distinct memory options |
| Catalog.CatalogFacts | constants.ts:3-28 | Every brand is in the catalog. Every entry is named after its key, has a picture and offers a non-empty list of distinct memory options |
| Catalog.ThemeLogosDefined | constants.ts:30-33 | Both themes have a theme logo |
| Catalog.PaymentConditionKinds | constants.ts:35-40 | There are four conditions. Exactly "NO BOLETO" and "EM ATÉ 12X NO CARTÃO" carry installments; "À VISTA" and "NO PIX" do not |
| Text.Contains | components/FlyerPreview.tsx:46 | `includes` answers true exactly when the marker occurs at some position of the condition |
| Preview.Observe | components/FlyerPreview.tsx:20-30 | A render with a new source resets the slot to pending. A render with the same source leaves the slot as it was. An `onLoad` event marks the current source loaded |
| Preview.PendingUntilLoad | components/FlyerPreview.tsx:20-30 | Without an `onLoad` event, a pending image slot stays pending through any renders |
| Preview.SlotTracksLastSource | components/FlyerPreview.tsx:20-30 | After a render, the slot's source is the source of the last render |
| Preview.LoadedSurvivesSameSource | components/FlyerPreview.tsx:24-30 | A loaded slot stays loaded through any renders of its own source, so an edit that keeps the picture does not bring the spinner back |
| Preview.ProductImage | components/FlyerPreview.tsx:17 | The product picture is the uploaded photo when it is non-empty, otherwise the catalog picture of the selected model. It is empty exactly when there is no uploaded photo and the selected model is not in the catalog |
| Preview.UnitPrice | components/FlyerPreview.tsx:48-50 | For an installment condition, the displayed price times the installment count is the total with interest. Otherwise it is the cash price |
| Preview.PriceRegion | components/FlyerPreview.tsx:171-207 | The price region appears exactly when the price is shown. It repeats the condition. It has the installment prefix and the total line exactly for installment conditions, with the prefix being the installment count |
| Preview.Compose | components/FlyerPreview.tsx:78-268 | The product name is the model, or "MODELO" when no model is chosen. Badge, WhatsApp and address lines carry the record's values |
| Preview.ComposeStyle | components/FlyerPreview.tsx:33-114 | The layout is the price-visible one exactly when the price is shown. The background is the Christmas photo on Christmas and plain black (`#000000`) on Black Friday. The border is gold on Christmas and crimson on Black Friday. The header logo is the theme's logo, and the badge under it shows the record's Instagram handle. The name is the large headline exactly when the price is hidden, with the gradient exactly on Black Friday |
| Preview.ComposeLayers | components/FlyerPreview.tsx:133-241 | The flyer's hero, price block, CTA and store logo are the layers the record calls for: the hero and the store logo carry their slots' spinner and opacity, the price block shows `total / installments` for installment conditions and the cash price otherwise, the CTA text is `customCta` when non-empty and otherwise the record's `ctaText`, the CTA is centred when the price is shown and otherwise sits in the corner, red exactly on Christmas, and the price block shares the border's accent |
| Preview.FirstRenderSpins | components/FlyerPreview.tsx:19-21 | On the first render both slots are freshly mounted, so a product picture and a store logo start under their spinners and invisible |
| Preview.PictureSlotAcrossEdit | components/FlyerPreview.tsx:133-148 | After an edit, the next render shows the spinner and hides the picture when the product picture changed, and keeps the old load state when it did not |
| Preview.LogoSlotAcrossEdit | components/FlyerPreview.tsx:226-238 | After an edit, the next render shows the logo spinner and hides the logo when the logo URL changed, and keeps the old load state when it did not |
| Preview.ComposeShowsExactly | components/FlyerPreview.tsx:89-263 | Every optional element (watermark, Christmas photo, memory badge, product picture or placeholder, price block, installment lines, CTA, store logo, WhatsApp, address) is present exactly when its visibility condition in the record holds |
| Preview.ThemeDecidesBackdrop | components/FlyerPreview.tsx:33-38 | Two records with the same theme get the same background, border colour, watermark and theme logo |
| Preview.PriceToggleOnlySwitchesLayout | components/FlyerPreview.tsx:56-76 | Flipping `showPrice` changes the layout mode and the picture height. Background, border, watermark, theme logo, handle, memory badge, name, store logo, contact lines, product picture and CTA text stay the same |
| Controls.HandleBrandChange | components/ControlPanel.tsx:18-21 | Choosing a brand sets the brand and clears model and memory, leaving a record whose memory agrees with its model |
| Controls.HandleModelChange | components/ControlPanel.tsx:23-34 | Choosing a catalog model sets the entry's name and its first memory option. Choosing "" or an unknown key clears model and memory. Everything else stays |
| Controls.ModelChangeKeepsMemoryConsistent | components/ControlPanel.tsx:23-34 | After any model choice, the memory is "" when there is no model, and otherwise one of the chosen model's options |
| Controls.BrandChangeResetsProduct | components/ControlPanel.tsx:18-21 | After a brand change without an uploaded photo, the flyer shows the "MODELO" name, the no-image placeholder and no memory badge |
| Controls.ModelChangeShowsCatalogPicture | components/ControlPanel.tsx:23-34 | After choosing a catalog model without an uploaded photo, the flyer shows the model's name and its catalog picture |
| Controls.HandleMemoryChange | components/ControlPanel.tsx:177-187 | Choosing a memory sets only the memory. An option the model offers keeps memory and model consistent |
| Controls.OfferedMemories | components/ControlPanel.tsx:181-186 | The memory select offers exactly the selected model's memory options, and nothing while no model is selected |
| Controls.HandleRemovePhoto | components/ControlPanel.tsx:163-171 | Removing the photo clears only the uploaded photo, so the catalog picture of the model (or none) comes back |
| Controls.InstallmentChoicesRange | components/ControlPanel.tsx:229 | The installment select offers 17 counts: exactly 2 to 18 |
| Controls.GarbledMarkerHidesCardFields | components/ControlPanel.tsx:220 | With the marker as written, choosing the card condition hides the installment fields, although the preview treats that condition as an installment condition |
| Controls.InstallmentFieldsMatchPreview | components/ControlPanel.tsx:220 | With the shared marker, the installment fields are shown exactly when the preview draws the installment prefix |
| Controls.InstallmentFieldsForListedConditions | components/ControlPanel.tsx:212-220 | With the shared marker and a listed condition, the installment fields are shown exactly for the boleto and card conditions, whether or not the price is shown |
| Controls.HandleExport | components/ControlPanel.tsx:78-105 | Without a mounted preview, nothing happens. Otherwise the record with animations off is captured, and the outcome is a download exactly when the capture succeeds and an alert exactly when it fails. The capture sees the record after the patches sent before it. With animations on, exactly one patch switches them off before the capture and one switches them on afterwards. With animations already off, no patch is emitted |
| Controls.ExportRestores | components/ControlPanel.tsx:82-103 | The patches before and after the capture together restore the record. The restoring patch is the same whether the capture succeeds or fails |
| Controls.CaptionMatchesFlyer | components/ControlPanel.tsx:59-64 | The caption request names the product the flyer names, at the cash price, and with the CTA text the flyer shows |
| Controls.StepFrame | App.tsx:12-14 | An edit leaves every field outside its own set of written fields unchanged |
| Controls.StepIsHandler | components/ControlPanel.tsx:18-187 | Choosing a brand, a model or a memory, and removing the photo, change the record exactly as the corresponding handler does |
| Controls.StepWritesInput | components/ControlPanel.tsx:36-290 | Each select, text input and upload writes the value it carries into its own field: theme, price, payment condition, installments, total, handle, WhatsApp, address, product photo and logo |
| Controls.StepWritesToggle | components/ControlPanel.tsx:301-305 | Each checkbox sets its flag to the state it was clicked into |
| Controls.ExportStepRestores | components/ControlPanel.tsx:82-103 | Whether or not the preview is mounted and the capture succeeds, an export leaves the record as it was |
| Controls.EditStaysWithin | components/ControlPanel.tsx:18-305 | No patch an edit emits gives a field outside the edit's written fields |
| Controls.PanelLeavesFixedFields | components/ControlPanel.tsx:107-368 | No edit changes `showLogo`, `showMemory`, `ctaText` or `customCta`; the panel has no control for them |
| Controls.InitialStateFacts | types.ts:44-66 | The initial record is consistent and uses a cash condition. It has no product picture and no logo, shows the placeholder, and has animations off. Its CTA text is the first CTA option |
| Controls.StepKeepsConsistent | components/ControlPanel.tsx:121-240 | Any offered edit preserves the invariant: memory consistent with the model, a non-empty model listed under the current brand, installments from 2 to 18, and a listed payment condition |
| Controls.RunKeepsConsistent | App.tsx:12-14 | Any sequence of offered edits preserves the invariant |
| Controls.SessionConsistent | App.tsx:10 | Every state reachable from the initial record by offered edits satisfies the invariant and can be composed, so no division by zero, and the catalog lookups of the memory select and the product picture find a selected model |
| Scenario.RedmiOfferState | components/ControlPanel.tsx:18-34 | Choosing Xiaomi, then "Redmi Note 13", then typing 999 from the initial record gives that model, its first memory option and the price, with the rest initial |
| Scenario.RedmiOfferFlyer | components/FlyerPreview.tsx:89-218 | That record composes into a Black Friday flyer with the catalog picture, the memory badge, the name, a cash price block of 999 and the centred "Imperdível!" CTA, and no store logo |

## Left out

- Number formatting (`toLocaleString('pt-BR')`) of the price, unit price and total is left out. Prices are reals, and the flyer carries the numbers themselves. The caption's `R$ ${price}` string is likewise carried as the price.
- `NaN` from `parseFloat`/`parseInt` on typed input is not modelled. Typed numbers are reals and integers.
- `FileReader` is not modelled. An upload carries what `onloadend` finds: the data URL, or nothing when the read failed, which clears the field.
- The caption button is also disabled while a caption request is in flight (`aiLoading === 'caption'`, components/ControlPanel.tsx:321). The model has no in-flight state, so a caption is available whenever a model is chosen.
- `html2canvas`, the download link, `setTimeout`, `console.error` and `alert` are not modelled. Export is a pure description: the patches it emits, the record it captures, and whether it downloads or alerts.
- The AI service calls, the tech-specs generator (components/ControlPanel.tsx:66-71), the clipboard, the landing page, animation classes and Tailwind styling are not part of this model. services/ is not part of this model.
- React's one render with the stale load flag before the reset effects run is left out. The slot automaton resets on the render that changes the source.
- `undefined` values inside a partial record are not modelled. A patch field is either given or absent.
- JavaScript prototype keys (`constructor`, …) in the catalog lookup are not modelled. The select never offers them.
- Edits made while an export's 100 ms timer is pending are not modelled. Export's before and after patches are applied as one step.
- Preview.Compose: the preview divides by the installment count without a guard. `Composable` therefore requires a non-zero count only for installment conditions, where the division happens. The panel only offers 2 to 18, so every reachable state meets it (`Controls.SessionConsistent`).
- `showLogo`, `showMemory`, `ctaText` and `customCta` have no control on the panel. They keep their initial values (`Controls.PanelLeavesFixedFields`).
- Pixel classes, colours other than the theme accents, and the text content of decorative layers are left out.

## Findings

| source | as written | input that shows it | evidently intended | confidence | as-written member | corrected member |
|---|---|---|---|---|---|---|
| components/ControlPanel.tsx:220 | The installment inputs are shown when the condition includes `'CARTÃƒO'` or `'BOLETO'`. `'CARTÃƒO'` is a double-encoded `CARTÃO` and matches no listed condition | paymentCondition = "EM ATÉ 12X NO CARTÃO": the preview draws "12x" and the total (components/FlyerPreview.tsx:46), but the panel hides the inputs for installments and total | The same `CARTÃO` marker the preview uses, so the card condition shows its inputs | low — the labels of the same file (176, 200, 210) are double-encoded the same way, so the file itself may have been saved double-encoded; not executed | Controls.GarbledMarkerHidesCardFields | Controls.InstallmentFieldsForListedConditions |

The rest of the model uses the corrected, shared marker `Catalog.CardMarker`.
