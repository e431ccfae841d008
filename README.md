# Portfolio site: estimator, contact forms and showcase widgets in Dafny

This project models the client-side logic of a React portfolio and agency site:

- the **interactive cost estimator** (project types, feature catalogue, timeline
  options, custom requirements, the pricing summary and the hand-off of a quote to
  the contact page);
- the **contact wizard**, the **contact panel** and the **contact page** that hosts the
  wizard;
- the **file upload** widget;
- the **progress indicator**;
- the showcase widgets: the **portfolio grid** modal navigation, the **project detail**
  page, its **image carousel** and **technology stack**, and the **testimonials** slider.

Components that only compute a value are datatypes and functions. Components
that keep React state are classes. Each `useState` variable is a field. Each
handler is a method with a `modifies` clause and a contract that states the
whole new state. Timer callbacks and promise continuations are explicit
transition methods:

- `AutoAdvanceFires`, `ResetFires`;
- `FinishSubmit` for the half of a submit that runs after the simulated delay.

JavaScript values are modelled as follows:

- A dynamic object is a `map<string, Value>`. Truthiness, `||` fallbacks and
  optional chaining are written out (module `JsValues`).
- `String.prototype.trim` and the `/\S+@\S+\.\S+/` email test are in `JsText`. The
  test is proved equal to "some substring matches the pattern".
- `parseInt` is in `JsText`; `Math.round` and `Math.ceil` are in `JsMath`.
- Prices and multipliers are `real`.

Shared modules:

- `Sequences`: `Array.prototype.filter`, with order and multiplicities preserved.
- `SiteRoutes`: the router's path-to-page table.
- `Wraparound`: the cyclic next and previous arithmetic. Every carousel in the site
  writes it its own way, and each way is proved equal to it.

Inputs from outside the program are parameters. This covers:

- the upload progress ticks;
- the `createdAt` timestamp;
- file ids;
- whether an `onSubmit` handler exists and whether it throws.

## Model

| member | source | states |
|---|---|---|
| PricingSummary.CalculatePricing | src/pages/interactive-cost-estimator/components/PricingSummary.jsx:13-28 | base price is 0 without a project type; features price is the sum of selected prices; subtotal = base + features; a missing or zero multiplier counts as 1; the adjustment is exactly the difference between total and subtotal |
| PricingSummary.AdjustmentSign | src/pages/interactive-cost-estimator/components/PricingSummary.jsx:25 | with a positive subtotal, the displayed adjustment is positive exactly for a multiplier above 1 and zero exactly at multiplier 1 |
| PricingSummary.CorrectedTotal | src/pages/interactive-cost-estimator/index.jsx:100-111 | the summary total scaled by the complexity factor; equals the summary total exactly when the factor is 1 |
| PricingSummary.BaseDays | src/pages/interactive-cost-estimator/components/PricingSummary.jsx:33-46 | landing page 10, web app 35, e-commerce 60, any other type 14 base days |
| PricingSummary.TotalDays | src/pages/interactive-cost-estimator/components/PricingSummary.jsx:48-54 | the base days plus the feature days: at least 10 plus one per feature |
| PricingSummary.AdjustedDays | src/pages/interactive-cost-estimator/components/PricingSummary.jsx:56-64 | urgent halves the days, flexible takes five quarters, both rounded up (2r-2 < d <= 2r, 4r-4 < 5d <= 4r); any other timeline keeps them |
| PricingSummary.WeeksOf | src/pages/interactive-cost-estimator/components/PricingSummary.jsx:66 | the fewest whole weeks holding the days: 7(w-1) < d <= 7w |
| PricingSummary.FeatureDays | src/pages/interactive-cost-estimator/components/PricingSummary.jsx:48-53 | a feature costs at least one day, it is the number `parseInt` reads before the first '-' when that is non-zero, and 3 when the read is NaN or 0 |
| PricingSummary.LeadingDigitDays | src/pages/interactive-cost-estimator/components/PricingSummary.jsx:49 | an effort text "d-…" with a leading digit 1-9 counts d days |
| PricingSummary.CatalogFeatureDays | src/pages/interactive-cost-estimator/components/FeatureSelector.jsx:6-127 | every catalogue feature's days are the non-zero number leading its effort text, so the fallback of 3 is never used |
| PricingSummary.SumFeatureDays | src/pages/interactive-cost-estimator/components/PricingSummary.jsx:48-53 | the feature days add at least one day per selected feature |
| PricingSummary.DurationWeeks | src/pages/interactive-cost-estimator/components/PricingSummary.jsx:30-66 | the weeks are the fewest holding the adjusted total days, and at least one |
| PricingSummary.Duration | src/pages/interactive-cost-estimator/components/PricingSummary.jsx:30-31 | the duration reads "TBD" exactly when project type or timeline is missing |
| PricingSummary.NumeralFirst | src/pages/interactive-cost-estimator/components/PricingSummary.jsx:66 | the week label starts with a digit |
| PricingSummary.WeeksLabelReadsBack | src/pages/interactive-cost-estimator/components/PricingSummary.jsx:64-73 | `parseInt` of "1 week" or "N weeks" gives back the week count |
| PricingSummary.DurationReadsBack | src/pages/interactive-cost-estimator/components/PricingSummary.jsx:73 | `parseInt` of the displayed duration recovers the week count the delivery date is computed from (label / parse round trip) |
| PricingSummary.TimelineOrdersWeeks | src/pages/interactive-cost-estimator/components/PricingSummary.jsx:56-63 | urgent never takes longer than standard, and standard never longer than flexible |
| PricingSummary.CeilMonotone | src/pages/interactive-cost-estimator/components/PricingSummary.jsx:58-65 | `Math.ceil` preserves order, which the timeline ordering rests on |
| PricingSummary.StripeDays | src/pages/interactive-cost-estimator/components/PricingSummary.jsx:49 | "4-6 days" contributes 4 days |
| PricingSummary.WebAppWithStripeWeeks | src/pages/interactive-cost-estimator/components/PricingSummary.jsx:56-66 | 39 working days give 6 weeks standard, 3 urgent and 7 flexible |
| PricingSummary.WebAppWithStripeDuration | src/pages/interactive-cost-estimator/components/PricingSummary.jsx:30-67 | a web app with Stripe takes 6, 3 or 7 weeks for standard, urgent and flexible timelines |
| PricingSummary.WebAppWithStripePricing | src/pages/interactive-cost-estimator/components/PricingSummary.jsx:13-28 | a web app with Stripe is priced 6200, 9300 (+3100) and 5270 (-930) |
| CostEstimator.ComplexityMultiplier | src/pages/interactive-cost-estimator/index.jsx:113-121 | the estimator's factor is positive and agrees with the requirements form's factor for every level |
| CostEstimator.TotalPrice | src/pages/interactive-cost-estimator/index.jsx:100-111 | the quote is 0 without a project type; otherwise the summary total times the complexity factor, rounded half up |
| CostEstimator.TotalMatchesSummaryAtUnitComplexity | src/pages/interactive-cost-estimator/index.jsx:100-111 | at complexity factor 1 the quoted total equals the summary panel's total, rounded |
| CostEstimator.SummaryTotalIgnoresComplexity | src/pages/interactive-cost-estimator/components/PricingSummary.jsx:13-28 | a web app on the standard timeline shows 5000 in the summary but is quoted 10000 at enterprise complexity |
| CostEstimator.CorrectedSummaryTotalMatchesQuote | src/pages/interactive-cost-estimator/index.jsx:100-111 | the corrected summary total, rounded, is always the quoted total |
| CostEstimator.WebAppWithStripeTotal | src/pages/interactive-cost-estimator/index.jsx:100-111 | at medium complexity a web app with Stripe is quoted 6200 (standard) and 9300 (urgent) |
| CostEstimator.Toggled | src/pages/interactive-cost-estimator/index.jsx:43-49 | checking appends the feature after the previous selection; unchecking removes every entry with that id and keeps every other entry |
| CostEstimator.UncheckRemovesOnlyFeature | src/pages/interactive-cost-estimator/index.jsx:43-49 | unchecking keeps every entry with another id exactly as often as before and no entry with the feature's id |
| CostEstimator.ToggleOffKeepsOrder | src/pages/interactive-cost-estimator/index.jsx:47 | unchecking keeps the remaining features in their selection order |
| CostEstimator.ToggleOnAddsPrice | src/pages/interactive-cost-estimator/index.jsx:45 | checking raises the features price by exactly that feature's price |
| CostEstimator.ToggleOnUnselectedKeepsIdsDistinct | src/pages/interactive-cost-estimator/index.jsx:43-49 | checking a feature that is not yet selected keeps selected ids distinct |
| CostEstimator.FeatureNames | src/pages/interactive-cost-estimator/index.jsx:65 | the quote lists the feature names in selection order, one per feature |
| CostEstimator.QuotePayload | src/pages/interactive-cost-estimator/index.jsx:61-70 | the quote has exactly the eight fields; its budget is the quoted total, its features the names; project type and timeline are the chosen names or ""; the three texts are taken over; complexity is "medium" when none is chosen and the chosen level otherwise |
| CostEstimator.QuoteLocationState | src/pages/interactive-cost-estimator/index.jsx:73-78 | navigation state carries exactly `estimateData` (the payload) and `fromEstimator` |
| CostEstimator.Estimator.constructor | src/pages/interactive-cost-estimator/index.jsx:16-20 | starts at step 1 with nothing chosen |
| CostEstimator.Estimator.SelectProjectType | src/pages/interactive-cost-estimator/index.jsx:37-41 | sets the type and clears the features; everything else unchanged |
| CostEstimator.Estimator.ToggleFeature | src/pages/interactive-cost-estimator/index.jsx:43-49 | the selection becomes `Toggled` of the old one; nothing else changes |
| CostEstimator.Estimator.SelectTimeline | src/pages/interactive-cost-estimator/index.jsx:51-53 | sets the timeline only |
| CostEstimator.Estimator.ChangeRequirements | src/pages/interactive-cost-estimator/index.jsx:55-57 | replaces the requirements only |
| CostEstimator.Estimator.NextStep | src/pages/interactive-cost-estimator/index.jsx:123-137 | advances below step 4 exactly when the step's data is present; leaving step 1 implies a project type and leaving step 3 a timeline; step stays in 1..4 |
| CostEstimator.Estimator.PreviousStep | src/pages/interactive-cost-estimator/index.jsx:139-143 | goes back one step, never below 1 |
| CostEstimator.Estimator.AutoAdvanceFires | src/pages/interactive-cost-estimator/index.jsx:31-35 | the auto-advance timer, armed at step 1 once a type is chosen and never cancelled, moves to step 2 and changes nothing else |
| CostEstimator.Estimator.GetQuote | src/pages/interactive-cost-estimator/index.jsx:59-78 | navigates to the contact route with the quote payload of the current state; state unchanged |
| CostEstimator.Estimator.SaveEstimate | src/pages/interactive-cost-estimator/index.jsx:81-94 | appends one saved estimate with the current selection and quoted total; nothing else changes |
| FeatureSelector.FeatureCatalog | src/pages/interactive-cost-estimator/components/FeatureSelector.jsx:6-127 | twelve features, ids pairwise distinct, every price positive |
| FeatureSelector.IsFeatureSelected | src/pages/interactive-cost-estimator/components/FeatureSelector.jsx:129-131 | true exactly when some selected feature has that id |
| FeatureSelector.RelevantCategories | src/pages/interactive-cost-estimator/components/FeatureSelector.jsx:137-155 | only catalogue categories, never more of them |
| FeatureSelector.RelevantCategoriesByType | src/pages/interactive-cost-estimator/components/FeatureSelector.jsx:137-155 | no type: all four; landing page: authentication and content; e-commerce: authentication, payments and admin; any other type: all four |
| FeatureSelector.LandingPageCategories | src/pages/interactive-cost-estimator/components/FeatureSelector.jsx:142-145 | the landing-page filter yields authentication then content |
| FeatureSelector.EcommerceCategories | src/pages/interactive-cost-estimator/components/FeatureSelector.jsx:148-151 | the e-commerce filter yields authentication, payments, admin |
| FeatureSelector.RelevantCategoriesKeepOrder | src/pages/interactive-cost-estimator/components/FeatureSelector.jsx:137-155 | the categories shown keep the catalogue's order |
| FeatureSelector.SumPricesAppend | src/pages/interactive-cost-estimator/components/PricingSummary.jsx:15 | the features price of two selections together is the sum of their prices |
| FeatureSelector.SumPricesNonNegative | src/pages/interactive-cost-estimator/components/PricingSummary.jsx:15 | non-negative prices give a non-negative features price |
| TimelineSelector.TimelineCatalog | src/pages/interactive-cost-estimator/components/TimelineSelector.jsx:5-54 | the three options have distinct ids, and only the urgent one surcharges |
| TimelineSelector.MultiplierOrOne | src/pages/interactive-cost-estimator/components/PricingSummary.jsx:17 | a missing or zero multiplier counts as 1, any other is used as is; never 0 |
| TimelineSelector.PriceImpact | src/pages/interactive-cost-estimator/components/TimelineSelector.jsx:56-63 | "Standard pricing" exactly at multiplier 1; a surcharge label starts with '+', a discount with '-' |
| TimelineSelector.PercentLabel | src/pages/interactive-cost-estimator/components/TimelineSelector.jsx:58-60 | the label is the sign, the decimal numeral and "% cost" |
| TimelineSelector.PriceImpactPercent | src/pages/interactive-cost-estimator/components/TimelineSelector.jsx:56-63 | reading the label back with `parseInt` gives the signed rounded percentage |
| TimelineSelector.CatalogImpactLabels | src/pages/interactive-cost-estimator/components/TimelineSelector.jsx:5-63 | the catalogue labels read "+50% cost", "Standard pricing", "-15% cost" |
| CustomRequirements.Merge | src/pages/interactive-cost-estimator/components/CustomRequirements.jsx:62-71 | the changed field takes the new value and the other three keep theirs |
| CustomRequirements.MergeLaws | src/pages/interactive-cost-estimator/components/CustomRequirements.jsx:62-71 | a second edit of a field overrides the first; edits of different fields commute |
| CustomRequirements.InitialValues | src/pages/interactive-cost-estimator/components/CustomRequirements.jsx:11-14 | complexity defaults to "medium" when empty and is the given level otherwise; the text fields are taken over unchanged |
| CustomRequirements.ComplexityMultiplier | src/pages/interactive-cost-estimator/components/CustomRequirements.jsx:73-86 | above 1 exactly for complex and enterprise, below 1 exactly for simple, 1 otherwise |
| CustomRequirements.RequirementsForm.constructor | src/pages/interactive-cost-estimator/components/CustomRequirements.jsx:11-14 | the form starts from the initial values |
| CustomRequirements.RequirementsForm.Change | src/pages/interactive-cost-estimator/components/CustomRequirements.jsx:39-71 | the form state becomes the merge and exactly that is emitted to the parent |
| FileUpload.ValidateFile | src/pages/contact-inquiry-form/components/FileUpload.jsx:29-37 | accepted exactly when the type is allowed and the size is at most maxSize MB; the type error wins over the size error |
| FileUpload.ProcessAcceptsFirstValid | src/pages/contact-inquiry-form/components/FileUpload.jsx:54-89 | the accepted files are the first valid ones of the batch, up to the free slots |
| FileUpload.ProcessAccountsForEveryFile | src/pages/contact-inquiry-form/components/FileUpload.jsx:54-89 | every file is either accepted or reported |
| FileUpload.ProcessRespectsCap | src/pages/contact-inquiry-form/components/FileUpload.jsx:54-89 | the list never grows past maxFiles |
| FileUpload.SizeLimitIsInclusive | src/pages/contact-inquiry-form/components/FileUpload.jsx:33-35 | a file of exactly maxSize MB is accepted, one byte more is refused with the size message |
| FileUpload.RemoveFileKeepsOthers | src/pages/contact-inquiry-form/components/FileUpload.jsx:91-101 | removal drops every file with that id, keeps all others as often as before and in their order |
| FileUpload.FileUploader.constructor | src/pages/contact-inquiry-form/components/FileUpload.jsx:5 | starts empty with the given limits |
| FileUpload.FileUploader.HandleFiles | src/pages/contact-inquiry-form/components/FileUpload.jsx:54-89 | appends the accepted files, alerts one message per refused file, notifies the parent exactly when something was added; the cap is kept |
| FileUpload.FileUploader.RemoveFile | src/pages/contact-inquiry-form/components/FileUpload.jsx:91-101 | filters the file out, drops its progress and notifies the new list |
| FileUpload.FileUploader.ReportProgress | src/pages/contact-inquiry-form/components/FileUpload.jsx:39-52 | records one progress value, list unchanged |
| ContactFormSteps.InitialFormData | src/pages/contact-inquiry-form/components/ContactFormSteps.jsx:10-35 | name, email and message start empty; project type, budget and timeline are set exactly when the estimate has a truthy value there, and then hold that value |
| ContactFormSteps.InitialFormDataShape | src/pages/contact-inquiry-form/components/ContactFormSteps.jsx:10-35 | the initial data holds exactly the fields the four steps render, with no files and the terms unchecked, whatever the estimate |
| ContactFormSteps.BlankFormDataShape | src/pages/contact-inquiry-form/components/ContactFormSteps.jsx:10-35 | before seeding, the form holds exactly the fields of the four steps, with no files and the terms unchecked |
| ContactFormSteps.PersonalErrors | src/pages/contact-inquiry-form/components/ContactFormSteps.jsx:120-127 | name error exactly when blank; email error exactly when blank or not matching the pattern, with the right message |
| ContactFormSteps.ProjectErrors | src/pages/contact-inquiry-form/components/ContactFormSteps.jsx:129-132 | project type error exactly when falsy; message error exactly when blank |
| ContactFormSteps.ReviewErrors | src/pages/contact-inquiry-form/components/ContactFormSteps.jsx:134-136 | terms error exactly when unchecked |
| ContactFormSteps.StepErrors | src/pages/contact-inquiry-form/components/ContactFormSteps.jsx:116-141 | a step reports errors only for its own fields, and each one exactly when its check fails; step 3 never fails |
| ContactFormSteps.StepErrorsIgnoreOtherSteps | src/pages/contact-inquiry-form/components/ContactFormSteps.jsx:116-141 | editing a field of another step cannot change a step's verdict |
| ContactFormSteps.ClearedError | src/pages/contact-inquiry-form/components/ContactFormSteps.jsx:108-113 | the edited field's error becomes empty, other errors are kept |
| ContactFormSteps.Wizard.constructor | src/pages/contact-inquiry-form/components/ContactFormSteps.jsx:10-35 | step 1, seeded form data, no errors, nothing submitted |
| ContactFormSteps.Wizard.HandleInputChange | src/pages/contact-inquiry-form/components/ContactFormSteps.jsx:102-114 | sets one field and clears its error; the steps already passed stay valid |
| ContactFormSteps.Wizard.NextStep | src/pages/contact-inquiry-form/components/ContactFormSteps.jsx:143-147 | errors become the step's errors; advances (at most to 4) exactly when there are none; every step before the current one is valid |
| ContactFormSteps.Wizard.PrevStep | src/pages/contact-inquiry-form/components/ContactFormSteps.jsx:149-151 | goes back one step, never below 1 |
| ContactFormSteps.Wizard.StartSubmit | src/pages/contact-inquiry-form/components/ContactFormSteps.jsx:153-157 | validates the current step; starts exactly when it passes, queueing the data as of the click; on the last step that data passes every step |
| ContactFormSteps.Wizard.FinishSubmit | src/pages/contact-inquiry-form/components/ContactFormSteps.jsx:158-165 | delivers the oldest queued snapshot to `onSubmit` and clears the busy flag |
| ContactFormPanel.InitialPanelData | src/components/ui/ContactFormPanel.jsx:14-26 | the eleven fields: every text field "", preferred contact "email", newsletter and terms false |
| ContactFormPanel.FormErrors | src/components/ui/ContactFormPanel.jsx:88-115 | one error per failing check and only for the five validated fields, with the right email message |
| ContactFormPanel.PersonalStepPasses | src/pages/contact-inquiry-form/components/ContactFormSteps.jsx:120-127 | step 1 passes exactly when name and email are filled and the email matches |
| ContactFormPanel.ProjectStepPasses | src/pages/contact-inquiry-form/components/ContactFormSteps.jsx:129-132 | step 2 passes exactly when a project type is chosen and the description is filled |
| ContactFormPanel.ReviewStepPasses | src/pages/contact-inquiry-form/components/ContactFormSteps.jsx:134-136 | step 4 passes exactly when terms are accepted |
| ContactFormPanel.PanelPasses | src/components/ui/ContactFormPanel.jsx:88-115 | the panel accepts exactly when all five checks pass |
| ContactFormPanel.PanelAcceptsOnlyValidData | src/components/ui/ContactFormPanel.jsx:88-115 | data the panel accepts passes every wizard step |
| ContactFormPanel.PanelAcceptsAllValidData | src/components/ui/ContactFormPanel.jsx:88-115 | data passing every wizard step is accepted by the panel |
| ContactFormPanel.PanelAcceptsWhatWizardAccepts | src/components/ui/ContactFormPanel.jsx:88-115 | panel and wizard enforce the same rules: accepted by one exactly when accepted by the other |
| ContactFormPanel.Panel.constructor | src/components/ui/ContactFormPanel.jsx:14-26 | initial data, no errors, idle |
| ContactFormPanel.Panel.Prefill | src/components/ui/ContactFormPanel.jsx:33-40 | shallow merge: prefilled keys win, other keys keep their values |
| ContactFormPanel.Panel.HandleInputChange | src/components/ui/ContactFormPanel.jsx:73-86 | sets one field and clears its error |
| ContactFormPanel.Panel.StartSubmit | src/components/ui/ContactFormPanel.jsx:117-124 | starts exactly when the form has no errors, and then the data passes every wizard step |
| ContactFormPanel.Panel.FinishSubmit | src/components/ui/ContactFormPanel.jsx:126-158 | hands the snapshot to the handler if there is one; success and a pending reset unless the handler throws; always ends idle |
| ContactFormPanel.Panel.ResetFires | src/components/ui/ContactFormPanel.jsx:137-152 | the reset timer restores the initial data and hides the success state |
| ContactFormPanel.Panel.SendAnother | src/components/ui/ContactFormPanel.jsx:173-177 | "Send Another Message" hides the success state and changes nothing else; a pending reset stays due |
| ContactInquiryPage.ReceivedEstimate | src/pages/contact-inquiry-form/index.jsx:17-22 | an estimate is taken under a key exactly when the navigation state holds a truthy value there (the page reads `estimatorData`) |
| ContactInquiryPage.QuoteNeverReachesPage | src/pages/interactive-cost-estimator/index.jsx:73-78 | the state the estimator sends is never picked up by the page |
| ContactInquiryPage.FixedIntakeDeliversQuote | src/pages/interactive-cost-estimator/index.jsx:73-78 | with the matching key the page receives exactly the quote payload |
| ContactInquiryPage.FirstRenderSeedDropsEstimate | src/pages/contact-inquiry-form/components/ContactFormSteps.jsx:10-35 | the wizard seeded at first render (null) differs from one seeded with an estimate that names a project type |
| ContactInquiryPage.SeededWizardData | src/pages/contact-inquiry-form/components/ContactFormSteps.jsx:10-35 | the wizard seeded with the received quote is well formed and prefilled from it |
| ContactInquiryPage.FixedSeedPrefillsWizard | src/pages/contact-inquiry-form/components/ContactFormSteps.jsx:19-21 | with both fixes a quote's project type, budget (the quoted total) and timeline reach the wizard |
| ContactInquiryPage.Page.constructor | src/pages/contact-inquiry-form/index.jsx:12-22 | the wizard starts from null data; the estimate from the location state is stored beside it |
| ContactInquiryPage.Page.LocationStateChanges | src/pages/contact-inquiry-form/index.jsx:17-22 | a truthy estimate replaces the stored one, otherwise it is kept |
| ContactInquiryPage.Page.HandleFormSubmit | src/pages/contact-inquiry-form/index.jsx:24-27 | records the submission and opens the success modal |
| ContactInquiryPage.Page.HandleCloseSuccessModal | src/pages/contact-inquiry-form/index.jsx:29-32 | closes the modal and forgets the submission |
| ContactInquiryPage.Page.DeliverSubmission | src/pages/contact-inquiry-form/index.jsx:134-136 | the wizard's queued snapshot reaches the page and opens the modal |
| ProgressIndicator.ProgressSteps | src/components/ui/ProgressIndicator.jsx:19 | given steps win; otherwise a prefix of the defaults of length `slice(0, totalSteps)` |
| ProgressIndicator.SliceEnd | src/components/ui/ProgressIndicator.jsx:19 | `slice` end semantics: clamped, negative counts from the end |
| ProgressIndicator.ProgressPercentage | src/components/ui/ProgressIndicator.jsx:20 | undefined (division by zero) exactly for one total step; 0 at the first step, 100 at the last, within 0..100 between |
| ProgressIndicator.PercentageMonotone | src/components/ui/ProgressIndicator.jsx:20 | a later step never shows less progress |
| ProgressIndicator.StepStatus | src/components/ui/ProgressIndicator.jsx:22-26 | completed before, current at, upcoming after the current step |
| ProgressIndicator.Statuses | src/components/ui/ProgressIndicator.jsx:57-59 | one status per step, step numbers counting from 1 |
| ProgressIndicator.StatusesShape | src/components/ui/ProgressIndicator.jsx:22-26 | the bar reads completed…, one current, upcoming… |
| ProgressIndicator.ExactlyOneCurrent | src/components/ui/ProgressIndicator.jsx:22-26 | exactly one step is current and `currentStep - 1` are completed |
| ProgressIndicator.CurrentLabel | src/components/ui/ProgressIndicator.jsx:144 | the mobile label is the current step's label, absent when the step is out of range |
| PortfolioGrid.ProjectCatalog | src/pages/home-portfolio-showcase/components/PortfolioGrid.jsx:12-157 | six projects, the one at position i has id i+1 |
| PortfolioGrid.NextWalksTheGrid | src/pages/home-portfolio-showcase/components/PortfolioGrid.jsx:165-169 | k presses of next from the first project reach project k+1 |
| PortfolioGrid.Grid.constructor | src/pages/home-portfolio-showcase/components/PortfolioGrid.jsx:8-10 | closed modal, nothing selected, index 0 |
| PortfolioGrid.Grid.HasNext | src/pages/home-portfolio-showcase/components/PortfolioGrid.jsx:330 | true exactly before the last project |
| PortfolioGrid.Grid.HasPrevious | src/pages/home-portfolio-showcase/components/PortfolioGrid.jsx:331 | true exactly after the first project |
| PortfolioGrid.Grid.HandleProjectClick | src/pages/home-portfolio-showcase/components/PortfolioGrid.jsx:159-163 | opens the modal on the clicked project |
| PortfolioGrid.Grid.HandleNextProject | src/pages/home-portfolio-showcase/components/PortfolioGrid.jsx:165-169 | cyclic successor; one place on when not at the end; the selection follows the index |
| PortfolioGrid.Grid.HandlePreviousProject | src/pages/home-portfolio-showcase/components/PortfolioGrid.jsx:171-175 | cyclic predecessor; one place back when not at the start; the selection follows the index |
| PortfolioGrid.Grid.CloseModal | src/pages/home-portfolio-showcase/components/PortfolioGrid.jsx:177-180 | closes and clears the selection, keeps the index |
| ProjectDetail.DistinctIds | src/pages/project-detail-modal/index.jsx:20-291 | three projects with distinct ids |
| ProjectDetail.FindIndex | src/pages/project-detail-modal/index.jsx:297 | the first position with that id, or -1 exactly when there is none |
| ProjectDetail.CurrentProject | src/pages/project-detail-modal/index.jsx:294 | the project with the requested id when one exists, otherwise the first |
| ProjectDetail.IndexFor | src/pages/project-detail-modal/index.jsx:296-299 | the synced index always points at the project shown |
| ProjectDetail.NoIdShowsFirst | src/pages/project-detail-modal/index.jsx:294-299 | with no id in the route the first project is shown at index 0 |
| ProjectDetail.LookupOwnId | src/pages/project-detail-modal/index.jsx:296-299 | looking a project up by its own id finds its position |
| ProjectDetail.TargetFor | src/pages/project-detail-modal/index.jsx:328 | navigation targets start with the detail route |
| ProjectDetail.IdOfTarget | src/pages/project-detail-modal/index.jsx:15 | under a route with a `:projectId` segment, an id is read exactly from paths under the detail route |
| ProjectDetail.TargetRoundTrip | src/pages/project-detail-modal/index.jsx:326-334 | under a route with a `:projectId` segment, navigating to a project's target and reading the id back lands on that project |
| ProjectDetail.TargetIsNotFound | src/Routes.jsx:16-23 | with the routes as declared, every project's target renders the "not found" page |
| SiteRoutes.RoutedPage | src/Routes.jsx:16-23 | each page exactly at its declared path (one trailing slash tolerated); every other path is not found |
| ProjectDetail.DetailPage.constructor | src/pages/project-detail-modal/index.jsx:17 | index starts at 0 |
| ProjectDetail.DetailPage.SyncIndex | src/pages/project-detail-modal/index.jsx:296-299 | the index afterwards is the shown project's position |
| ProjectDetail.DetailPage.HasPrevious | src/pages/project-detail-modal/index.jsx:381 | true exactly after the first project |
| ProjectDetail.DetailPage.HasNext | src/pages/project-detail-modal/index.jsx:382 | true exactly before the last project |
| ProjectDetail.DetailPage.HandlePrevious | src/pages/project-detail-modal/index.jsx:326-329 | the target names the cyclic predecessor (one back when not at the start), which a `:projectId` route would show |
| ProjectDetail.DetailPage.HandleNext | src/pages/project-detail-modal/index.jsx:331-334 | the target names the cyclic successor (one on when not at the end), which a `:projectId` route would show |
| ProjectImageCarousel.Carousel.constructor | src/pages/project-detail-modal/components/ProjectImageCarousel.jsx:7-8 | first image, not zoomed |
| ProjectImageCarousel.Carousel.MainImage | src/pages/project-detail-modal/components/ProjectImageCarousel.jsx:10-16 | no image exactly for an empty list (placeholder), otherwise the current one |
| ProjectImageCarousel.Carousel.HandlePrevious | src/pages/project-detail-modal/components/ProjectImageCarousel.jsx:18-20 | cyclic predecessor, zoom kept |
| ProjectImageCarousel.Carousel.HandleNext | src/pages/project-detail-modal/components/ProjectImageCarousel.jsx:22-24 | cyclic successor, zoom kept |
| ProjectImageCarousel.NextIsSucc | src/pages/project-detail-modal/components/ProjectImageCarousel.jsx:22-24 | the carousel's "last goes to 0" rule is the modular successor |
| ProjectImageCarousel.Carousel.HandleThumbnailClick | src/pages/project-detail-modal/components/ProjectImageCarousel.jsx:26-28 | the clicked thumbnail becomes the main image |
| ProjectImageCarousel.Carousel.ToggleZoom | src/pages/project-detail-modal/components/ProjectImageCarousel.jsx:30-32 | flips zoom, image unchanged |
| TestimonialsSection.RenderStars | src/pages/home-portfolio-showcase/components/TestimonialsSection.jsx:76-85 | five stars, star i filled exactly when i < rating |
| TestimonialsSection.Stars | src/pages/home-portfolio-showcase/components/TestimonialsSection.jsx:77 | n stars, star i filled exactly when i < rating |
| TestimonialsSection.StarsCount | src/pages/home-portfolio-showcase/components/TestimonialsSection.jsx:76-85 | the number of filled stars is the rating clamped to 0..n |
| TestimonialsSection.FilledStars | src/pages/home-portfolio-showcase/components/TestimonialsSection.jsx:76-85 | the number of filled stars is the rating clamped to 0..5 |
| TestimonialsSection.AllFiveStars | src/pages/home-portfolio-showcase/components/TestimonialsSection.jsx:9-62 | every testimonial shows five filled stars |
| TestimonialsSection.Slider.constructor | src/pages/home-portfolio-showcase/components/TestimonialsSection.jsx:7 | starts on the first testimonial |
| TestimonialsSection.Slider.Current | src/pages/home-portfolio-showcase/components/TestimonialsSection.jsx:7-62 | the shown testimonial is always one of the four |
| TestimonialsSection.Slider.NextTestimonial | src/pages/home-portfolio-showcase/components/TestimonialsSection.jsx:64-66 | cyclic successor |
| TestimonialsSection.Slider.PrevTestimonial | src/pages/home-portfolio-showcase/components/TestimonialsSection.jsx:68-70 | cyclic predecessor |
| TestimonialsSection.Slider.GoToTestimonial | src/pages/home-portfolio-showcase/components/TestimonialsSection.jsx:72-74 | the chosen dot's testimonial is shown |
| TechnologyStack.CategoryOf | src/pages/project-detail-modal/components/TechnologyStack.jsx:11 | never empty; the technology's own category when it has one ("other" otherwise) |
| TechnologyStack.FirstAppearances | src/pages/project-detail-modal/components/TechnologyStack.jsx:10-17 | the categories without repeats, exactly those that occur |
| TechnologyStack.FirstAppearancesOrder | src/pages/project-detail-modal/components/TechnologyStack.jsx:10-17 | the listed categories are in order of first occurrence |
| TechnologyStack.FirstAppearancesSnoc | src/pages/project-detail-modal/components/TechnologyStack.jsx:12-14 | one more technology adds its category at the end exactly when it is new |
| TechnologyStack.Categories | src/pages/project-detail-modal/components/TechnologyStack.jsx:11 | one category per technology, in order |
| TechnologyStack.Categorize | src/pages/project-detail-modal/components/TechnologyStack.jsx:10-17 | the reduce builds one group per category in first-appearance order, and each group is the in-order filter of that category |
| TechnologyStack.GroupsCoverAll | src/pages/project-detail-modal/components/TechnologyStack.jsx:10-17 | the groups together hold exactly as many entries as there are technologies |
| TechnologyStack.InExactlyOneGroup | src/pages/project-detail-modal/components/TechnologyStack.jsx:10-17 | each technology's category is a key, and it appears in that group and no other |
| TechnologyStack.Sections | src/pages/project-detail-modal/components/TechnologyStack.jsx:5-60 | nothing for an empty list; otherwise one section per category in first-appearance order with its icon, title and group |
| TechnologyStack.CategoryIcon | src/pages/project-detail-modal/components/TechnologyStack.jsx:19-34 | the generic "Code" icon exactly for unknown categories |
| TechnologyStack.CategoryTitle | src/pages/project-detail-modal/components/TechnologyStack.jsx:36-51 | the generic "Technologies" title exactly for unknown categories |
| TechnologyStack.TitlesDistinguishKnownCategories | src/pages/project-detail-modal/components/TechnologyStack.jsx:36-51 | different known categories get different titles |
| JsText.TrimStart | src/pages/interactive-cost-estimator/components/TimelineSelector.jsx:58-60 | the leading white space removed is a blank prefix, and what remains does not start with white space |
| JsText.Trim | src/pages/contact-inquiry-form/components/ContactFormSteps.jsx:121 | trimming gives the empty string exactly for blank input |
| JsText.EmailPatternTestIsRegexTest | src/pages/contact-inquiry-form/components/ContactFormSteps.jsx:124 | the executable email test holds exactly when some substring has the shape non-space+ '@' non-space+ '.' non-space+ |
| JsText.ParseIntOfNumeral | src/pages/interactive-cost-estimator/components/PricingSummary.jsx:73 | `parseInt` reads a decimal numeral back to its value when a non-digit follows |
| JsText.SignedNumeralParse | src/pages/interactive-cost-estimator/components/TimelineSelector.jsx:58-60 | a signed numeral parses to the signed value |
| JsText.ParseIntWithoutMinus | src/pages/interactive-cost-estimator/components/PricingSummary.jsx:49 | without a minus sign `parseInt` never yields a negative number |
| JsMath.Round | src/pages/interactive-cost-estimator/index.jsx:110 | `Math.round` lands within half a unit, ties upward |
| JsMath.Ceil | src/pages/interactive-cost-estimator/components/PricingSummary.jsx:65 | `Math.ceil` is the least integer not below its argument |

## Left out

- Rendering: JSX, CSS classes, icons and animation are left out. The model keeps the state each component renders from and the data each element shows (main image, star fills, step statuses, sections).
- Wall-clock timers: the 500 ms auto-advance, the two 2 s submit delays and the 3 s reset. Each one's callback is an explicit transition method. The model does not decide when a callback runs or whether it is cancelled on unmount.
- Money display: `toLocaleString` formatting of the quoted total. The quote carries the number itself (`Value.Price`).
- The estimated delivery date (`new Date`, `setDate`, `toLocaleDateString`) is left out. Only the week count it is computed from is modelled (`PricingSummary.DurationReadsBack`).
- Browser storage: `localStorage`, `JSON.parse`/`stringify`, `alert` and `new Date().toISOString()` are left out. `SaveEstimate` appends to an in-memory list and takes `createdAt` as a parameter.
- Upload side effects:
  - The progress ticks use `Math.random`, so `ReportProgress` takes the value as a parameter.
  - `formatFileSize` uses `Math.log` and is not modelled.
  - `URL.createObjectURL` previews are left out.
  - Ids built from `Date.now() + Math.random()` are supplied by the caller.
- `FileUpload.FileUploader.HandleFiles`: the source spreads a `File` object (`{...file}`), which copies none of its own properties. The model keeps name, type and size on the attachment as the component evidently intends.
- FileUpload remounting when the wizard returns to step 2 (which empties its local list) is not modelled.
- Floating point: prices and multipliers are exact reals. Double-precision rounding (e.g. `0.85` not being exact) is not modelled.
- `handleFeatureChange` in the feature selector and the timeline card `onClick` only forward their arguments to the estimator handlers. They are modelled by those handlers.
- Escape key, backdrop click and the close buttons of the detail page navigate with the router or act on the DOM. They are not modelled.
- `ProjectDetail`: the router defines `/project-detail-modal` without a `:projectId` segment, so in the running site the id is always absent. The model takes the id as an `Option` and covers both cases.
- `ProjectDetail.IdOfTarget`: reads the id as a `:projectId` route would. The declared routes (Routes.jsx:21) have no such segment, so the running site never reads it (see Findings).
- `ProjectDetail.TargetRoundTrip`: states the intended round trip. With the declared routes the target renders the "not found" page (Routes.jsx:23, `ProjectDetail.TargetIsNotFound`).
- `ProjectDetail.DetailPage.HandlePrevious`: the target is proved to name the predecessor. With the declared routes that target renders the "not found" page.
- `ProjectDetail.DetailPage.HandleNext`: the target is proved to name the successor. With the declared routes that target renders the "not found" page.
- `SiteRoutes.RoutedPage`: React Router's case-insensitive matching is not modelled; the declared paths are all lower case.
- `ContactFormPanel.Panel.Prefill`: requires the prefilled name, email and message to be strings or null when present. The source merges any value; a number or an object there would make a later `.trim()` in validation throw, and that failure is not modelled.
- `TechnologyStack.Sections`: `Object.entries` lists integer-like keys first. The model assumes category names that are not array indices, for which the order is insertion order. It also assumes names that are not `Object.prototype` members (`constructor`, `toString`, `__proto__`, …): on the plain `{}` accumulator such a name finds an inherited truthy value, the group is never opened and `push` throws, while the model groups it normally.
- `ProjectImageCarousel.Carousel`: the index is not reset when the image list prop changes; the model fixes the list at construction.
- `ContactFormSteps.Wizard.HandleInputChange` requires the field to belong to the current step and text inputs to carry strings. Only the current step's inputs are rendered, and text inputs deliver strings. A non-string name, email or message would make `.trim()` throw, which is not modelled.
- `ContactFormPanel.Panel.FinishSubmit`: a throwing `onSubmit` handler is represented by a flag. The error is logged to the console, which is left out.
- A concrete stack-grouping example over the detail page's technology lists is not proved. The general `TechnologyStack.Categorize` and `TechnologyStack.Sections` contracts cover those lists.

## Findings

| source | as written | input that shows it | evidently intended | confidence | as-written member | corrected member |
|---|---|---|---|---|---|---|
| src/pages/interactive-cost-estimator/components/PricingSummary.jsx:13-28 | the summary's total ignores the complexity factor that the quoted total (index.jsx:100-111) applies | web app, no features, standard timeline, complexity "enterprise": summary 5000, quote 10000 | the summary shows the same total as the quote; its own note (PricingSummary.jsx:227-228) says final pricing may vary with complexity, so the gap may be deliberate | not executed; low | CostEstimator.SummaryTotalIgnoresComplexity | CostEstimator.CorrectedSummaryTotalMatchesQuote |
| src/pages/contact-inquiry-form/index.jsx:18-19 | the page reads `location.state.estimatorData`, but the estimator sends `estimateData` (index.jsx:73-78) | any quote sent by "Get Quote" | the page receives the quote | not executed | ContactInquiryPage.QuoteNeverReachesPage | ContactInquiryPage.FixedIntakeDeliversQuote |
| src/pages/contact-inquiry-form/components/ContactFormSteps.jsx:10-35 | the wizard's state is seeded from `estimatorData` only at the first render, when the page still passes null; a later estimate never reaches it | a quote naming a project type arriving through the navigation state | the wizard is prefilled with the received quote's project type, budget and timeline | not executed | ContactInquiryPage.FirstRenderSeedDropsEstimate | ContactInquiryPage.FixedSeedPrefillsWizard |
| src/Routes.jsx:21 | the detail page is declared at `/project-detail-modal` without a `:projectId` segment, while its previous/next controls navigate to `/project-detail-modal/<id>` (project-detail-modal/index.jsx:326-334) | pressing "Next" on the detail page: `/project-detail-modal/task-management-app` matches only the catch-all route and renders the "not found" page | the route carries the id, and the target shows the neighbouring project | not executed | ProjectDetail.TargetIsNotFound | ProjectDetail.TargetRoundTrip |
