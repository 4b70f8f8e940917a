# Order intake and site widgets of the automation-company website, in Dafny

The website is a React/TypeScript marketing site for an industrial-automation
company. Beside its presentational pages it holds a small amount of
deterministic logic, and this project models that logic and proves properties
of it:

- **Field validators and formatters** in two parallel utility files.
  - `src/utils.ts` (module `Utils`) is the one the wizard imports. It holds:
    - a phone formatter that dashes the first run of eleven digits;
    - regular-expression checks for `010-dddd-dddd` phones, e-mail addresses and dashed `ddd-dd-ddddd` business numbers;
    - a random order number (a parameter here);
    - `substring`-based truncation;
    - the per-step rules `validateStep` and the price estimate;
    - step drafts under `orderForm_step<n>`, merged by `loadFormData` for steps 1 to 3, the completed record under `completedOrderForm`, and `clearTempData` of steps 1 to 3;
    - the file size check and a MIME-prefix or name-suffix type check.
  - `src/utils/index.ts` (module `UtilsIndex`) is a variant that nothing shown imports. It holds:
    - a phone formatter that strips non-digits and dashes ten or eleven digits as 3-3-4 or 3-4-4;
    - a business-number formatter;
    - a phone check on the digits and the mobile prefix;
    - a business-number check by a weighted-digit checksum;
    - order numbers from a per-day counter kept in `localStorage`;
    - `slice`-based truncation;
    - step drafts under `order_form_step_<n>` and the completed record under `order_form_complete`, whose `loadFormData` reads that record back rather than merging drafts, and `clearTempData` of steps 1 to 4;
    - the same file size check and an extension-list type check.
  - Its writes go through `storage.set`, which catches and logs a failing `setItem`.
  - E-mail checking and the file size rule are the same in both.
- **The order-intake wizard.**
  - The declared field rules of `OrderFormSteps.tsx` (module `OrderFormSteps`).
  - The four-step machine of `OrderForm.tsx` (module `OrderWizard`, class `OrderForm`): per-step validation, the attachment list, and the submit sequence.
  - The simpler guarded step counter of `pages/OrderPage.tsx` (module `OrderPage`).
  - The scale and budget tables of `types/index.ts` (module `OrderTypes`).
- **Small UI state machines.**
  - The testimonial carousel, in both copies (module `Carousel`).
  - The accordion, tabs and star rating (module `Premium`).
  - Width-to-breakpoint classification and the keyboard cursor (module `Responsive`).
- **Admin list operations.**
  - Search and status filtering, and status change by id (module `OrderList`).
  - The dashboard's narrower search (module `AdminDashboard`).
  - The newest-first sort, top five, tallies, elapsed-time labels and status table (module `RecentActivity`).

Shared building blocks:

- Module `Text` stands for the JavaScript string built-ins the site uses: `\d`, `\s`, `toLowerCase`, `includes`, `indexOf`, `filter`, `String(n)`, `parseInt` and `padStart`.
- Module `Patterns` holds the regular expressions used in more than one place. Each is a hand-written predicate proved equal to the expression's language.
- Module `Browser` holds JavaScript values, `window.localStorage` (a class whose `items` map is updated in place) and `File` objects.

The model takes these things as parameters:

- time: the parsed completion instant, today's midnight, `now`, and the date used for order numbers;
- the window width and the key pressed;
- the random order number of `src/utils.ts`;
- whether the completed-order write of `OrderWizard.OrderForm.OnSubmit` throws. The step-draft writes (`SaveCurrentStep`, `GoToNextStep`, `GoToPrevStep`) and the order counter's write are modelled as always succeeding.

React `useState` slots are class fields, and their setters are methods.

Three behaviours of the code are worth knowing, and the model keeps them:

- After a submission, `orderForm_step4` can remain in storage: going back from step 4 saves a draft under that key, and the submission clears steps 1 to 3 only (see `OrderWizard.OrderForm.GoToPrevStep` and `OrderWizard.OrderForm.OnSubmit`).
- The wizard's file-type check compares `application/pdf` against the file *name*, so an ordinary PDF is refused (`OrderWizard.PdfNeverAttached`).
- Each step saves the whole form, not only that step's fields, under its own step key.

## Model

| member | source | states |
|---|---|---|
| OrderTypes.FormStepIsOneToFour | src/types/index.ts:109 | a form step is exactly one of 1, 2, 3, 4 |
| OrderTypes.ScaleBudgetsAreRanges | src/types/index.ts:168-172 | every scale's budget pair has 0 < min < max |
| OrderTypes.ScaleRangesAdjoin | src/types/index.ts:168-172 | small ends at 100,000,000 where medium starts; medium ends at 500,000,000 where large starts |
| OrderTypes.ServiceTypeIdsDistinct | src/types/index.ts:175-180 | the four service ids are pairwise distinct |
| OrderTypes.OneSectionPerStep | src/types/index.ts:130-165 | the form data has four distinct sections, one per step |
| Patterns.MobilePatternIsRegex | src/components/OrderFormSteps.tsx:80-85 | the phone predicate holds iff the string splits as prefix 010/011/016/017/018/019, optional '-', 3 or 4 digits, optional '-', 4 digits |
| Patterns.EmailPatternIsRegex | src/utils.ts:31-34 | the e-mail predicate holds iff the string splits as non-empty `[^\s@]` segments around one '@' and a later '.'; this is both `isValidEmail` and the step-1 e-mail rule |
| Utils.FormatPhoneNumber | src/utils.ts:26-28 | with no run of 11 digits the input is unchanged; otherwise exactly two dashes go in, after the 3rd and 7th digit of the leftmost run, and nothing else changes |
| Utils.FormatPhoneNumberNoRun | src/utils.ts:26-28 | a string with no 11-digit run comes back unchanged |
| Utils.FormatElevenDigits | src/utils.ts:26-28 | eleven bare digits become the 3-4-4 dashed form |
| Utils.FormatPhoneNumberKeepsDigits | src/utils.ts:26-28 | formatting keeps the digit sequence |
| Utils.ValidatePhoneIsFormatted | src/utils.ts:47-50 | `validatePhone` holds iff the input is the formatted form of 11 digits starting with 010, i.e. exactly `010-dddd-dddd` |
| Utils.ValidatePhoneWithinMobilePattern | src/utils.ts:47-50 | every phone `validatePhone` accepts also passes the step-1 phone rule |
| Utils.ValidatePhoneStricterThanMobilePattern | src/utils.ts:47-50 | "011-123-4567" and "01012345678" pass the step-1 rule but not `validatePhone` |
| Utils.ValidateBusinessNumberIsGrouped | src/utils.ts:53-56 | `validateBusinessNumber` holds iff the input is 3 digits, '-', 2 digits, '-', 5 digits |
| Utils.TruncateText | src/utils.ts:154-157 | input unchanged when its length ≤ maxLength; otherwise its first maxLength characters (none when negative) followed by "..." |
| Utils.ValidateStepMeansFields | src/utils.ts:85-96 | `validateStep` is false outside steps 1–3 and, for those, true iff every listed field is truthy |
| Utils.CalculateEstimate | src/utils.ts:98-109 | the result is base price × scale factor (×2 large, ×1.5 medium, ×1 otherwise) and lies in [1,000,000, 10,000,000] |
| Utils.DraftKeyInjective | src/utils.ts:111-114 | distinct steps get distinct draft keys |
| Utils.CompletedKeyIsNoDraftKey | src/utils.ts:142-144 | the completed-order key is no step's draft key |
| Utils.SaveStepData | src/utils.ts:111-114 | the store gains (or replaces) exactly the step's draft key, holding what `JSON.parse(JSON.stringify(data))` gives back |
| Utils.SavedDraftSkipsUndefined | src/utils.ts:111-126 | a field whose value is `undefined` is absent from the draft read back |
| Utils.MergeDraftsKeys | src/utils.ts:116-126 | a key is in the merged draft iff some step 1..n draft has it |
| Utils.MergeDraftsLaterWins | src/utils.ts:116-126 | on shared keys the latest step's value wins |
| Utils.LoadFormData | src/utils.ts:116-126 | the loop's result is the ascending merge of the step 1..3 drafts |
| Utils.LoadIgnoresStep4 | src/utils.ts:116-126 | whatever is stored under the step-4 key never reaches the loaded data |
| Utils.SaveFormData | src/utils.ts:142-144 | the store gains exactly the completed-order key, holding the record as JSON gives it back |
| Utils.ClearTempData | src/utils.ts:146-150 | exactly the step 1..3 draft keys are removed and every other key stays |
| Utils.ClearKeepsStep4AndCompleted | src/utils.ts:146-150 | the step-4 draft and the completed order are not among the cleared keys |
| Utils.FileSizeLimit | src/utils.ts:128-131 | with the default of 10 MB, `validateFileSize` admits exactly the files of at most 10,485,760 bytes; a larger `maxSizeMB` admits every file a smaller one does |
| Utils.ValidateFileType | src/utils.ts:133-140 | accepted iff some allowed entry matches: entries with '*' by MIME prefix, others by lower-cased name suffix |
| Utils.DefaultTypesAcceptImagesAndWord | src/utils.ts:133-140 | with the default list, any image MIME type or a ".doc" name is accepted |
| Utils.DefaultTypesRejectPdf | src/utils.ts:133-140 | with the default list, a file of type application/pdf named "*.pdf" is refused |
| UtilsIndex.FormatPhoneNumber | src/utils/index.ts:33-43 | unchanged unless the input has 10 or 11 digits; otherwise the digits with two dashes, after the 3rd digit and before the last four |
| UtilsIndex.FormatPhoneNumberIdempotent | src/utils/index.ts:33-43 | formatting twice is formatting once |
| UtilsIndex.FormatBusinessNumber | src/utils/index.ts:46-54 | exactly 10 digits become 3-2-5 dashed groups; anything else is unchanged |
| UtilsIndex.FormatBusinessNumberValidates | src/utils/index.ts:46-54 | the formatted number passes the 3-2-5 check of src/utils.ts iff the input had 10 digits or already passed it |
| UtilsIndex.ValidatePhoneMeans | src/utils/index.ts:95-98 | `validatePhone` holds iff the input's digits number 10 or 11 and start with a mobile prefix |
| UtilsIndex.ValidatePhoneIgnoresFormatting | src/utils/index.ts:95-98 | formatting a phone number does not change whether it validates |
| UtilsIndex.ChecksumDoubled | src/utils/index.ts:107-118 | the real-valued check equals the check on doubled integers: 2·sum = 2·Σdᵢwᵢ + d₉ compared mod 20 |
| UtilsIndex.ValidateBusinessNumber | src/utils/index.ts:101-119 | the loop's verdict is "10 digits and the checksum as written holds" |
| UtilsIndex.OddNinthDigitRejected | src/utils/index.ts:114-118 | an odd ninth digit is always rejected |
| UtilsIndex.EvenNinthDigitOneCheckDigit | src/utils/index.ts:114-118 | with an even ninth digit exactly one tenth digit passes |
| UtilsIndex.OddNinthDigitDisagreement | src/utils/index.ts:114 | "1234567815" passes the floored rule but not the rule as written |
| UtilsIndex.ChecksumFlooredOneCheckDigit | src/utils/index.ts:114-118 | with the floored term every nine-digit prefix has exactly one valid check digit |
| UtilsIndex.BusinessNumberOddNinthDigit | src/utils/index.ts:101-119 | "123-45-67815" is accepted by the floored rule |
| UtilsIndex.GenerateOrderNumber | src/utils/index.ts:70-86 | reads the day's counter, stores its successor under `order_count_YYYYMMDD` and nothing else, and returns `MS-YYYYMMDD-` plus the successor padded to 3 digits |
| UtilsIndex.FirstOrderOfTheDay | src/utils/index.ts:76-79 | with no counter stored the first number is 1 |
| UtilsIndex.CounterIncreases | src/utils/index.ts:76-81 | after storing n within ±(2^53−1), the next count is n+1, so same-day numbers strictly increase in that range |
| UtilsIndex.CounterStuckAtNaN | src/utils/index.ts:76-81 | a stored "NaN" stays NaN for ever |
| UtilsIndex.TruncateText | src/utils/index.ts:200-203 | input unchanged when its length ≤ maxLength; otherwise `slice(0, maxLength)` followed by "..." |
| UtilsIndex.TruncateVariantsAgree | src/utils/index.ts:200-203 | for maxLength ≥ 0 both truncations agree |
| UtilsIndex.TruncateVariantsDiffer | src/utils/index.ts:200-203 | for a negative maxLength they differ ("..." against "ab...") |
| UtilsIndex.StepKeysDifferFromDraftKeys | src/utils/index.ts:208-210 | the two files' draft keys never coincide |
| UtilsIndex.ClearTempData | src/utils/index.ts:228-232 | exactly `order_form_step_1` … `order_form_step_4` are removed |
| UtilsIndex.Extension | src/utils/index.ts:240-243 | the extension has no '.', ends the name, and follows a '.' unless it is the whole name |
| UtilsIndex.ExtensionAfterDot | src/utils/index.ts:240-243 | the extension of `stem.ext` is `ext` |
| UtilsIndex.DefaultExtensionsAcceptPdf | src/utils/index.ts:240-243 | with the default list a ".pdf" or ".PDF" name is accepted |
| UtilsIndex.TrailingDotRejected | src/utils/index.ts:240-243 | a name ending in '.' has an empty extension and is refused by any list |
| OrderFormSteps.FieldRulesMean | src/components/OrderFormSteps.tsx:34-136 | each rule in plain terms: company and contact ≥ 2 characters, address ≥ 10, description ≥ 50, detailed description ≥ 100, phone and e-mail by their patterns, a completion date strictly after today's midnight, both consents checked |
| OrderFormSteps.BusinessNumberOptional | src/components/OrderFormSteps.tsx:155-160 | an empty business number passes; a non-empty one must match 3-2-5 digits with optional dashes |
| OrderFormSteps.BusinessNumberPatternHasTenDigits | src/components/OrderFormSteps.tsx:155-160 | a matching business number has 10 digits, and its 3-2-5 formatted form passes the dashed check |
| OrderFormSteps.BusinessNumberPatternAcceptsBothForms | src/components/OrderFormSteps.tsx:155-160 | both the dashed form and 10 bare digits match |
| OrderFormSteps.CompletionNotToday | src/components/OrderFormSteps.tsx:327-334 | a completion instant at or before today's midnight is refused |
| OrderFormSteps.ToggleService | src/components/OrderFormSteps.tsx:235-239 | checking appends the id; unchecking removes every copy, keeps the count of every other id, and leaves a subsequence of the list |
| OrderFormSteps.CheckedServiceIsValid | src/components/OrderFormSteps.tsx:218-220 | after checking a service the non-empty rule holds |
| OrderFormSteps.ToggleServiceRoundTrip | src/components/OrderFormSteps.tsx:235-239 | checking then unchecking an unchecked id restores the list |
| OrderFormSteps.UncheckKeepsOrder | src/components/OrderFormSteps.tsx:235-239 | unchecking is exactly `filter(x => x !== id)`, a subsequence of the list |
| Text.WithoutIsFilter | src/components/OrderFormSteps.tsx:235-239 | removing every copy of a value is the filter that keeps the other values |
| Text.WithoutIsSubsequence | src/components/OrderFormSteps.tsx:235-239 | removing every copy of a value keeps the rest in their order |
| OrderFormSteps.ApplyScale | src/components/OrderFormSteps.tsx:195-201 | the budget becomes exactly the scale's pair and no other project field changes |
| OrderFormSteps.ApplyScaleBudgetIsRange | src/components/OrderFormSteps.tsx:195-201 | after the effect the budget is a proper range |
| OrderWizard.DefaultData | src/components/OrderForm.tsx:41-70 | the defaults are medium scale with budget equal to the medium pair, every text field empty, empty lists, no site visit, unchecked consents |
| OrderWizard.DefaultDataPassesNoStep | src/components/OrderForm.tsx:41-70 | no step validates on the defaults |
| OrderWizard.BusinessNumberNeverValidated | src/components/OrderForm.tsx:103-111 | changing the business number never changes any step's verdict |
| OrderWizard.AllStepsMeanAllRules | src/components/OrderForm.tsx:103-111 | all four steps validate iff every field rule except the business number's holds |
| OrderWizard.Progress | src/components/OrderForm.tsx:167 | progress is step/4 × 100, one of 25, 50, 75, 100 |
| OrderWizard.NavigationAt | src/components/OrderForm.tsx:296-333 | Prev is enabled iff step > 1; Next shows below step 4 and the submit button exactly at step 4 |
| OrderWizard.Accepted | src/components/OrderForm.tsx:115-128 | only files passing the 10 MB and type checks are kept, each with its full multiplicity |
| OrderWizard.AcceptedConcat | src/components/OrderForm.tsx:115-128 | filtering keeps the selection order |
| OrderWizard.PdfNeverAttached | src/components/OrderForm.tsx:115-128 | an ordinary PDF never becomes an attachment |
| OrderWizard.DropIndexRemovesOne | src/components/OrderForm.tsx:134-138 | filtering by index removes exactly the element at an in-range index and nothing otherwise |
| OrderWizard.ToRecord | src/components/OrderForm.tsx:73-76 | the saved record has exactly the four section keys |
| OrderWizard.StoredRecord | src/components/OrderForm.tsx:73-76 | the record as stored keeps its four sections; only the attachments change, each file becoming `{}` |
| OrderWizard.StoredAttachments | src/components/OrderForm.tsx:73-76 | `JSON.stringify` turns the attachment list into as many empty objects |
| OrderWizard.LegacyValidateStepRejectsWizardData | src/utils.ts:85-96 | `validateStep` would refuse every wizard record, since it reads flat keys the nested record lacks |
| OrderWizard.OrderForm.SaveCurrentStep | src/components/OrderForm.tsx:73-76 | the whole form, as JSON gives it back, is stored under the current step's draft key |
| OrderWizard.OrderForm.GoToNextStep | src/components/OrderForm.tsx:89-95 | on a valid step: saved, then min(step+1, 4); otherwise step and store unchanged |
| OrderWizard.OrderForm.GoToPrevStep | src/components/OrderForm.tsx:97-100 | always saves under the current step, then max(step−1, 1), with no validation |
| OrderWizard.OrderForm.SelectScale | src/components/OrderFormSteps.tsx:195-201 | the scale click applies the budget effect and changes nothing else |
| OrderWizard.OrderForm.ToggleServiceType | src/components/OrderFormSteps.tsx:235-239 | only the service list changes, by the toggle |
| OrderWizard.OrderForm.HandleFileUpload | src/components/OrderForm.tsx:115-131 | attachments become the old list followed by the accepted files; the form value follows |
| OrderWizard.OrderForm.RemoveFile | src/components/OrderForm.tsx:134-138 | exactly the attachment at the index goes, the rest keep their order |
| OrderWizard.OrderForm.OnSubmit | src/components/OrderForm.tsx:141-164 | on success the record with its order number is stored and every step 1..3 draft is gone; on failure the store is untouched; either way isSubmitting ends false |
| OrderPage.InitialFormData | src/pages/OrderPage.tsx:42-65 | three sections, empty scope and file lists |
| OrderPage.ToggleScope | src/pages/OrderPage.tsx:336-340 | checking appends the option; unchecking removes every copy, keeps the count of every other option, and leaves a subsequence of the list |
| OrderPage.ToggleScopeShowsChecked | src/pages/OrderPage.tsx:336-340 | after a toggle the box shows as checked exactly when it was set |
| OrderPage.ToggleScopeRoundTrip | src/pages/OrderPage.tsx:336-340 | checking then unchecking an unchecked option restores the list |
| Browser.FileArray | src/pages/OrderPage.tsx:380-384 | `Array.from` keeps the files in order |
| Browser.JsonObject | src/utils.ts:111-114 | `JSON.stringify` leaves out every field holding `undefined` |
| Browser.JsonValueIsClean | src/utils.ts:111-114 | what the JSON round trip gives back holds no `undefined` and no `File`, at any depth |
| Browser.JsonObjectIsClean | src/utils.ts:111-114 | every field of an object after the round trip is clean |
| Browser.CleanJsonValue | src/utils.ts:111-114 | a clean value comes back from the round trip unchanged |
| Browser.CleanJsonObject | src/utils.ts:111-114 | an object with clean fields comes back unchanged |
| Browser.JsonObjectIdempotent | src/utils.ts:111-114 | a second round trip changes nothing |
| OrderPage.ButtonsAt | src/pages/OrderPage.tsx:604-656 | Prev iff 1 < step < 4, Next on steps 1–2, Submit on step 3, nothing on step 4 |
| OrderPage.ForwardControls | src/pages/OrderPage.tsx:604-656 | against the wizard: one forward control below step 4 and none at 4, the page's submit one step earlier than the wizard's, and no Prev on the completion screen |
| OrderPage.OrderPageState.HandleNext | src/pages/OrderPage.tsx:94-98 | increments only below 4 |
| OrderPage.OrderPageState.HandlePrev | src/pages/OrderPage.tsx:100-104 | decrements only above 1 |
| OrderPage.OrderPageState.HandleSubmit | src/pages/OrderPage.tsx:106-108 | the spinner starts, nothing else changes |
| OrderPage.OrderPageState.SubmitTimerFires | src/pages/OrderPage.tsx:110-113 | step 4 and isSubmitting false |
| OrderPage.OrderPageState.UpdateFormData | src/pages/OrderPage.tsx:116-124 | only that field of that section changes |
| OrderPage.OrderPageState.ToggleScopeOption | src/pages/OrderPage.tsx:336-340 | only the scope list changes, and it shows the option as set |
| OrderPage.OrderPageState.SelectFiles | src/pages/OrderPage.tsx:380-384 | a selection replaces the file list; no selection changes nothing |
| Carousel.NextThenPrev | src/components/TestimonialsSection.tsx:37-43 | prev after next is the identity |
| Carousel.PrevThenNext | mansong-systems-website/src/components/TestimonialsSection.tsx:30-36 | next after prev is the identity |
| Carousel.FullTurn | src/components/TestimonialsSection.tsx:26-34 | n auto-advances come back to the same slide |
| Carousel.Step | src/components/TestimonialsSection.tsx:26-43 | each event's effect; a tick advances only while auto-playing; hover clears and leave sets the flag |
| Carousel.RunStaysInRange | src/components/TestimonialsSection.tsx:22-43 | under any event sequence from a slide in range the slide stays in 0..n−1 |
| Carousel.PausedTicksDoNothing | mansong-systems-website/src/components/TestimonialsSection.tsx:19-27 | while paused, any number of ticks changes nothing |
| Carousel.HalfStarIsTheFractionalOne | src/components/TestimonialsSection.tsx:61-67 | a star is half iff it sits at floor(rating) and the rating is fractional |
| Carousel.StarsAreOrdered | mansong-systems-website/src/components/TestimonialsSection.tsx:43-49 | full stars, then at most one half star, then empty ones |
| Carousel.Stars | src/components/TestimonialsSection.tsx:59-67 | five stars, each by the fill rule |
| Carousel.PartnerStrip | mansong-systems-website/src/components/TestimonialsSection.tsx:205 | the first min(5, n) testimonials, in order |
| Carousel.TestimonialCarousel.NextSlide | src/components/TestimonialsSection.tsx:37-39 | (i+1) mod n, staying in range |
| Carousel.TestimonialCarousel.PrevSlide | src/components/TestimonialsSection.tsx:41-43 | (i−1+n) mod n, staying in range |
| Carousel.TestimonialCarousel.SelectSlide | mansong-systems-website/src/components/TestimonialsSection.tsx:173 | an indicator click sets the slide directly |
| Carousel.TestimonialCarousel.Tick | src/components/TestimonialsSection.tsx:26-34 | advances only while auto-playing |
| Carousel.TestimonialCarousel.MouseEnter | src/components/TestimonialsSection.tsx:169 | auto-play off, slide unchanged |
| Carousel.TestimonialCarousel.MouseLeave | mansong-systems-website/src/components/TestimonialsSection.tsx:89 | auto-play on, slide unchanged |
| Premium.ToggleOpen | src/components/premium/PremiumInteractive.tsx:28-38 | multiple mode removes an open id or appends a closed one; single mode gives [] or [id] |
| Premium.MultipleToggleIsLocal | src/components/premium/PremiumInteractive.tsx:30-33 | in multiple mode only the toggled id changes open-ness |
| Premium.MultipleToggleTwice | src/components/premium/PremiumInteractive.tsx:30-33 | toggling the same id twice restores the open set |
| Premium.MultipleToggleTwiceFromClosed | src/components/premium/PremiumInteractive.tsx:30-33 | from closed, toggling twice restores the very list |
| Premium.Accordion.ToggleItem | src/components/premium/PremiumInteractive.tsx:28-38 | flips the item; in single mode at most one item is ever open |
| Premium.InitialTab | src/components/premium/PremiumInteractive.tsx:118 | defaultTab when non-empty, else the first tab's id, else none |
| Premium.ShownPanels | src/components/premium/PremiumInteractive.tsx:144-146 | exactly the panels whose id equals the active tab |
| Premium.OnePanelShown | src/components/premium/PremiumInteractive.tsx:144-146 | with distinct ids exactly the selected panel shows |
| Premium.Tabs.SelectTab | src/components/premium/PremiumInteractive.tsx:127 | a tab click makes that tab active |
| Premium.FilledStarsArePrefix | src/components/premium/PremiumInteractive.tsx:406-408 | the filled stars are a prefix of the row |
| Premium.HoverShowsUpTo | src/components/premium/PremiumInteractive.tsx:408 | while hovering, star v is filled iff v ≤ hoverRating |
| Premium.Rating.HandleClick | src/components/premium/PremiumInteractive.tsx:398-402 | onChange receives the value unless readonly or absent |
| Premium.Rating.MouseEnter | src/components/premium/PremiumInteractive.tsx:414 | sets hoverRating unless readonly |
| Premium.Rating.MouseLeave | src/components/premium/PremiumInteractive.tsx:415 | hoverRating back to 0 |
| Responsive.CurrentBreakpoint | src/utils/ResponsiveUtils.tsx:80-86 | the largest breakpoint from md up that the width reaches, sm below 768 |
| Responsive.BreakpointMonotone | src/utils/ResponsiveUtils.tsx:80-86 | the breakpoint never decreases as width grows |
| Responsive.FlagsPartitionWidths | src/utils/ResponsiveUtils.tsx:91-93 | exactly one of isMobile, isTablet, isDesktop; mobile iff sm, tablet iff md, desktop iff lg/xl/2xl |
| Responsive.AfterKey | src/utils/ResponsiveUtils.tsx:285-305 | Home gives 0, End itemCount−1, other keys nothing; the index stays in range |
| Responsive.ArrowsWrap | src/utils/ResponsiveUtils.tsx:291-297 | ArrowUp wraps 0 to the last item, ArrowDown the last to 0 |
| Responsive.ArrowsUndoEachOther | src/utils/ResponsiveUtils.tsx:291-297 | Down then Up, and Up then Down, return to the same item |
| Responsive.KeyboardNavigation.HandleKeyDown | src/utils/ResponsiveUtils.tsx:285-308 | the key's transition, and the index stays in 0..itemCount−1 |
| OrderList.FilteredOrders | src/components/admin/OrderList.tsx:220-226 | exactly the orders matching the lower-cased search in name, id or contact and the status filter |
| OrderList.FilteredIsSubsequence | src/components/admin/OrderList.tsx:220-226 | the result is an order-preserving subsequence of the data |
| OrderList.EmptySearchShowsAll | src/components/admin/OrderList.tsx:220-226 | an empty search with 'all' shows every order |
| OrderList.RelaxingKeepsOrders | src/components/admin/OrderList.tsx:220-226 | a shorter search or the 'all' filter keeps every order shown before |
| OrderList.SetStatus | src/components/admin/OrderList.tsx:238-245 | orders with that id get the status, all others unchanged, same length |
| OrderList.SetStatusIdempotent | src/components/admin/OrderList.tsx:238-245 | applying the same change twice is applying it once |
| OrderList.ChangedOrderShowsUnderNewStatus | src/components/admin/OrderList.tsx:220-245 | a changed order is found by its id under its new status |
| OrderList.OrderListState.HandleStatusChange | src/components/admin/OrderList.tsx:238-245 | only the status of orders with that id changes; length and every other field stay |
| OrderList.OrderListState.HandleViewOrder | src/components/admin/OrderList.tsx:228-231 | the modal opens on that order |
| OrderList.OrderListState.HandleCloseModal | src/components/admin/OrderList.tsx:233-236 | the modal closes and the selection clears |
| OrderList.StatusColor | src/components/admin/OrderList.tsx:53-61 | unknown statuses get the gray style |
| OrderList.StatusLabel | src/components/admin/OrderList.tsx:63-71 | known statuses get their label, any other status is returned unchanged |
| OrderList.StatusLabelInjective | src/components/admin/OrderList.tsx:63-71 | the four known statuses have different labels |
| OrderList.ServiceChips | src/components/admin/OrderList.tsx:334-346 | the first two service types, plus a "+k" chip iff there are more than two |
| OrderList.ChipsCountEveryService | src/components/admin/OrderList.tsx:341-345 | k is the number of service types not shown |
| AdminDashboard.FilteredOrders | src/pages/AdminDashboard.tsx:233-238 | exactly the orders matching the search in name or id and the status filter |
| AdminDashboard.FilteredIsSubsequence | src/pages/AdminDashboard.tsx:233-238 | an order-preserving subsequence of the mock list |
| AdminDashboard.EmptySearchListsAll | src/pages/AdminDashboard.tsx:233-238 | an empty search with 'all' lists every order |
| AdminDashboard.ContactPersonMatchIgnored | src/pages/AdminDashboard.tsx:233-238 | a term found only in the contact person keeps an order in the order table but not here |
| AdminDashboard.DashboardNarrowerThanOrderList | src/pages/AdminDashboard.tsx:233-238 | the dashboard lists a subsequence of what the order table shows |
| AdminDashboard.RelaxingBringsOrdersBack | src/pages/AdminDashboard.tsx:210-238 | the list never changes, so a shorter search or the 'all' filter only brings orders back |
| RecentActivity.SortNewestFirst | src/components/admin/RecentActivity.tsx:144-146 | a permutation of the input in non-increasing createdAt order |
| RecentActivity.RecentOrders | src/components/admin/RecentActivity.tsx:149 | min(5, n) orders, newest first, drawn from the input |
| RecentActivity.ShownAreNewest | src/components/admin/RecentActivity.tsx:144-149 | no order left out is newer than one shown |
| RecentActivity.TalliesFitShown | src/components/admin/RecentActivity.tsx:190-202 | the three tallies add up to at most the number shown |
| RecentActivity.TimeAgoBuckets | src/components/admin/RecentActivity.tsx:73-87 | minutes = floor(d/60,000) under an hour, hours in 1..23, days = floor(d/86,400,000) ≥ 1 |
| RecentActivity.TimeAgoTextCarriesCount | src/components/admin/RecentActivity.tsx:78-86 | the number at the head of the text is the bucket's count |
| RecentActivity.GetStatusInfo | src/components/admin/RecentActivity.tsx:28-70 | any unknown status gets the default '알 수 없음' entry |
| RecentActivity.StatusInfoLabelsDistinguish | src/components/admin/RecentActivity.tsx:28-70 | a known status's label belongs to it alone |

## Left out

- JSON text. A stored object is kept as the value `JSON.parse(JSON.stringify(o))` returns, `Browser.JsonObject(o)`: `undefined` fields are dropped, `undefined` array items become `null`, and a `File` becomes `{}`. The text itself and its layout are not modelled, so storage maps keys to that slot type rather than to strings.
- `Utils.Draft` skips a draft key whose slot is plain text. In the program, `JSON.parse` throws on malformed text; a parsed string or array would be copied by `Object.assign` character by character or element by element under index keys; a number, boolean or `null` adds nothing. Nothing in the program writes such a value under a draft key.
- UtilsIndex.GenerateOrderNumber, UtilsIndex.CounterIncreases: counts are exact integers. The program's counter is a double: above 2^53 `parseInt(..) + 1` rounds, so "9007199254740992" would be issued twice, and from 1e21 on `toString` writes "1e+21", which `parseInt` reads back as 1. `CounterIncreases` is stated only for counts up to 2^53 − 1 in size; reaching the bound takes a counter edited in storage.
- OrderFormSteps.MinLength, Utils.TruncateText, UtilsIndex.TruncateText: lengths are counted in Unicode code points, while `.length`, `substring`, `slice` and `minLength` count UTF-16 code units, so the model agrees with the program only on text inside the Basic Multilingual Plane. For example "😀" has length 2 in the program and 1 here, and the program's `truncateText("😀😀", 1)` keeps a lone surrogate.
- The wizard's restore effect (src/components/OrderForm.tsx:79-86) is not modelled. It `setValue`s whatever JSON the merged drafts hold, which the typed form state cannot represent; restored attachments would be `{}` objects.
- The react-hook-form engine (`register`, `trigger`, `handleSubmit`, error messages) is not modelled; only the declared rules are. `OrderWizard.StepValid` stands for `trigger` on the step's fields, and `OnSubmit` is modelled from the point where the handler runs.
- Randomness: `generateOrderNumber` of src/utils.ts and the random number shown at src/pages/OrderPage.tsx:420 are parameters.
- Time: `Date` parsing, time zones and `toLocale*` formatting are left out. The completion rule takes the parsed instant and today's local midnight as integers, and `RecentActivity` takes `createdAt` and `now` in milliseconds. `DateStamp` takes year, month and day.
- Floating point helpers (`formatFileSize`, currency and percentage formatting, chart normalisation) are left out. The testimonial and rating values use Dafny reals.
- `Utils.ValidateFileSize`: a fractional `maxSizeMB` is not modelled, because sizes are integers. The `validateFileSize` of src/utils/index.ts:235-237 is the same rule and is modelled once.
- `isValidEmail` (src/utils.ts:31-34) and `validateEmail` (src/utils/index.ts:89-92) use the same expression and are both `Patterns.EmailPattern`.
- `saveStepData`, `loadStepData`, `saveFormData` and `loadFormData` of src/utils/index.ts are not modelled. They differ from src/utils.ts in their key names, in reading the completed record rather than merging drafts, and in writing through `storage.set` (src/utils/index.ts:143-149), which catches and logs a failing `setItem`. Only the key scheme (`UtilsIndex.StepKey`) and `clearTempData` are modelled.
- `Text.ToLower` lower-cases ASCII letters only; other characters are left as they are.
- Timers, DOM listeners, focus handling, `alert` and animation are left out. The carousel's interval, the submit delay and the key listener become the methods they trigger.
- `RecentActivity.SortNewestFirst` is proved sorted and a permutation. That ties keep their input order, as the stable `Array.prototype.sort` does, is not proved.
- `OrderList.StatusLabel` treats the `labels` object as a plain table. Inherited property names such as "constructor" are not modelled.
- The page-level wiring (routing, the mock data tables, `HeaderNew`, `HeroSection` and the other presentational components) is not part of this model.

## Findings

| source | as written | input that shows it | evidently intended | confidence | as-written member | corrected member |
|---|---|---|---|---|---|---|
| src/utils/index.ts:114 | `sum += parseInt(cleaned[8]) * 5 / 10` adds a half-integer when the ninth digit is odd, so the remainder is fractional and no check digit can equal it | "123-45-67815" (digits 1234567815; weighted sum 125, floored term 0, check digit 5) | the floored term `Math.floor(d₉ * 5 / 10)` of the national check-digit rule, under which every nine-digit prefix has exactly one valid tenth digit | not executed | UtilsIndex.OddNinthDigitDisagreement | UtilsIndex.ChecksumFlooredOneCheckDigit |
