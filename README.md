# Skylane consular application centre — a Dafny model

This project models the front end of a consular application centre for Bahrain: the React components under `src/components`.

It covers three pieces:

- **The landing page.** The user picks citizenship, residence and destination. A simulated API then returns the consular services, and the active ones are grouped by category. An application starts either for one chosen service or for all active services.
- **The twelve-step booking wizard.** The steps are:
  1. application overview and fees;
  2. phone verification;
  3. service selection;
  4. document checklist;
  5. document upload;
  6. additional verification;
  7. forms and IDs;
  8. personal information;
  9. appointment;
  10. preview;
  11. payment;
  12. confirmation.

  A collapsible sidebar groups the steps into eight categories.
- **The older four-step wizard.** Its steps are select service, collect documents, upload them and submit.

Each component is one Dafny module.

- **Components that keep state** become a `class`:
  - the application shell;
  - the two wizards;
  - the landing page;
  - the panels with local `useState`.

  Their handlers are methods with `modifies this`. Each method states the whole new state.
- **Pure computations** become functions with contracts. Examples are the formatters, filters, the grouping, counters and the merge of partial records.
- **Shared pieces** live in their own modules:
  - `Lists`: JavaScript's `filter`, index removal and `map`.
  - `Text`: removing non-digits, `trim`, `padStart`, `toString` and `toFixed` on exact amounts.
  - `StepMachine`: the bounded step counter both wizards use.
  - `Catalogue`: services, the active filter and the grouping by category.
  - `Checklist`: the add-or-remove toggle.

Conventions used throughout:

- **Timers.** Each `setTimeout` becomes two methods: one that starts the work and increments a `pending…` counter, and one that completes it.
- **Advancing the wizard.** A panel's `onNext` call increments a `nextRequests` counter.
- **Money.** Amounts are whole numbers of minor units: US cents, or Bahraini fils.

## Model

| member | source | states |
|---|---|---|
| StepMachine.NextPreviousMoves | src/components/ConsularApplication.tsx:37-47 | Next moves forward by one below the last step and is a no-op on it. Previous moves back by one above step 1 and is a no-op on it. Both stay in `[1, n]`. Each undoes the other where it moved. |
| StepMachine.RunStaysInRange | src/components/skylane/SkylaneBooking.tsx:215-225 | From any step in `[1, n]`, any sequence of Next/Previous clicks stays in `[1, n]`. |
| StepMachine.RunForwards | src/components/skylane/SkylaneBooking.tsx:215-219 | `k` clicks on Next from `step` reach `min(step + k, n)`. |
| StepMachine.ExactlyOneActive | src/components/ConsularApplication.tsx:129-131 | On an `n`-step wizard exactly one indicator is active. No indicator is both active and completed. |
| StepMachine.ActiveCountDistinct | src/components/ConsularApplication.tsx:129-130 | Over distinct ids, the number of active indicators is 1 if the current step is listed and 0 otherwise. |
| ConsularApplication.Merge | src/components/ConsularApplication.tsx:49-51 | The shallow merge `{ ...prev, ...data }`. A field present in the patch takes the patch's value. Every other field keeps its value. |
| ConsularApplication.MergeLaws | src/components/ConsularApplication.tsx:49-51 | The empty patch changes nothing. Applying a patch twice equals applying it once. Two successive updates equal one update by their combination, with the later one winning. |
| ConsularApplication.Wizard.constructor | src/components/ConsularApplication.tsx:27-33 | Starts on step 1 with an empty service, no documents, no files and empty personal info. |
| ConsularApplication.Wizard.HandleNext | src/components/ConsularApplication.tsx:37-41 | The step becomes `Next(step, 4)`. The data is unchanged. |
| ConsularApplication.Wizard.HandlePrevious | src/components/ConsularApplication.tsx:43-47 | The step becomes `Previous(step)`. The data is unchanged. |
| ConsularApplication.Wizard.UpdateApplicationData | src/components/ConsularApplication.tsx:49-51 | The data becomes the merge of the patch. The step is unchanged. |
| SkylaneApp.App.CurrentScreen | src/components/SkylaneApp.tsx:33-37 | The booking wizard is shown iff `showBooking` holds and parameters are present, and it is shown with exactly those parameters. Otherwise the landing page is shown. |
| SkylaneApp.App.constructor | src/components/SkylaneApp.tsx:20-21 | First render: no booking, no parameters, landing page. |
| SkylaneApp.App.StartApplication | src/components/SkylaneApp.tsx:23-26 | Stores the given parameters and shows the booking wizard with them. |
| SkylaneApp.App.BackToHome | src/components/SkylaneApp.tsx:28-31 | Returns to the initial state from any state. |
| SkylaneApp.StartThenHome | src/components/SkylaneApp.tsx:23-31 | Starting shows the booking with the parameters. Going home then shows the landing page again. |
| Lists.Filter | src/components/steps/DocumentCollection.tsx:116-117 | `filter`: keeps exactly the elements satisfying the predicate, in their original order, and is never longer than its input. |
| Lists.FilterMultiplicity | src/components/steps/DocumentCollection.tsx:127 | Every occurrence of a kept value stays. No occurrence of a dropped value remains. |
| Lists.FilterAppend | src/components/skylane/ConsularLanding.tsx:244 | Filtering distributes over concatenation. |
| Lists.FilterKeepsAll | src/components/skylane/ConsularLanding.tsx:244 | The filter keeps everything exactly when every element passes, and then returns the input itself. |
| Lists.FilterStronger | src/components/skylane/steps/DocumentCollectionStep.tsx:168 | A stricter predicate keeps no more elements. |
| Lists.RemoveAtSpec | src/components/steps/DocumentUpload.tsx:34 | `filter((_, i) => i !== index)` with the index in range drops exactly that element. The others keep their order. |
| Lists.Map | src/components/skylane/steps/DocumentCollectionStep.tsx:50 | `map`: same length, and each element is the image of the input element. |
| Text.Digits | src/components/skylane/steps/PhoneNumberStep.tsx:26 | `replace(/\D/g, '')`: the result is all digits, no longer than the input, and the identity on digit strings. |
| Text.DigitsSpec | src/components/skylane/steps/PhoneNumberStep.tsx:26 | Exactly the non-digits are dropped: each digit keeps all its occurrences, no other character remains, and the digits keep their order. |
| Text.DigitsAppend | src/components/skylane/steps/PhoneNumberStep.tsx:26 | Removing non-digits commutes with concatenation. |
| Text.Trim | src/components/skylane/steps/PhoneNumberStep.tsx:32 | `trim()`: the result is a contiguous piece of the input with no whitespace at either end, and everything cut off before and after it is whitespace. |
| Text.TrimNoSpace | src/components/skylane/steps/PhoneNumberStep.tsx:32 | A string with no whitespace at either end is its own trim. |
| Text.DecimalString | src/components/skylane/steps/OtpVerificationStep.tsx:39-41 | `toString()` of a natural number is a non-empty string of digits with no leading zero, except for 0 itself. |
| Text.DecimalRoundTrip | src/components/skylane/steps/OtpVerificationStep.tsx:41 | Reading back the rendered numeral gives the number. |
| Text.PadZeros | src/components/skylane/steps/OtpVerificationStep.tsx:41 | `padStart(width, '0')`: the length is the larger of the input length and `width`, the input is the suffix, and zeros come before it. |
| Text.PadZerosValue | src/components/skylane/steps/OtpVerificationStep.tsx:41 | Zero padding does not change the value a numeral denotes. |
| Text.FixedWhole | src/components/skylane/steps/PaymentStep.tsx:107 | `toFixed(places)` of a whole amount is its numeral, a point, and `places` zeros. |
| Catalogue.ActiveServicesSpec | src/components/skylane/ConsularLanding.tsx:243-244 | The active services are exactly the services with `isActive`, in their original order. The list is empty iff no service is active, so `services.some(isActive)` holds iff the list is non-empty. |
| Catalogue.ActiveServicesAppend | src/components/skylane/ConsularLanding.tsx:244 | Filtering a catalogue piecewise and concatenating gives the filter of the whole. |
| Catalogue.CategoriesSpec | src/components/skylane/ConsularLanding.tsx:245-252 | A category has a key in the grouping exactly when some service belongs to it. |
| Catalogue.GroupedSnoc | src/components/skylane/ConsularLanding.tsx:245-252 | Adding one service at the end changes only its own category's group, by appending it. |
| Catalogue.GroupServices | src/components/skylane/ConsularLanding.tsx:245-252 | The `reduce` loop yields `Grouped(active)`. The loop invariant says the accumulator is the grouping of the prefix processed so far. |
| Catalogue.GroupedPartition | src/components/skylane/ConsularLanding.tsx:245-252 | Every service is in the group of its own category and in no other. The three group sizes add up to the number of services. |
| Catalogue.CategorySizes | src/components/skylane/steps/ApiServiceSelectionStep.tsx:59-65 | The per-category lists of visa, OCI and passport services add up to the whole list. |
| Checklist.Toggle | src/components/steps/DocumentCollection.tsx:125-130 | Afterwards the id is listed iff it was not before. A present id is removed everywhere. An absent id is appended. Every other id keeps its number of occurrences. |
| Checklist.ToggleAbsentTwice | src/components/steps/DocumentCollection.tsx:125-130 | Toggling an absent id twice restores the original list. |
| ConsularLanding.MockResponseAllActive | src/components/skylane/ConsularLanding.tsx:59-114 | The simulated answer has nine services, all active, so the active filter keeps all of them. |
| ConsularLanding.Landing.constructor | src/components/skylane/ConsularLanding.tsx:215-220 | First render: destination `IN`, the other pickers empty, no services, not loading. |
| ConsularLanding.Landing.FetchServices | src/components/skylane/ConsularLanding.tsx:222-237 | Does nothing unless all three countries are chosen. Otherwise loading starts and one response is scheduled. |
| ConsularLanding.Landing.CompleteFetch | src/components/skylane/ConsularLanding.tsx:228-231 | The scheduled response: the services become the simulated answer and loading ends. |
| ConsularLanding.Landing.SetCitizenship | src/components/skylane/ConsularLanding.tsx:239-241 | Sets the citizenship. The fetch effect runs only when the value changed, and schedules a response only when all three countries are chosen. |
| ConsularLanding.Landing.SetResidence | src/components/skylane/ConsularLanding.tsx:239-241 | The same for residence. |
| ConsularLanding.Landing.SetDestination | src/components/skylane/ConsularLanding.tsx:239-241 | The same for destination. |
| ConsularLanding.Landing.CanProceed | src/components/skylane/ConsularLanding.tsx:243 | Holds iff all three countries are chosen and some service is active. Equivalently, the active list is non-empty. |
| ConsularLanding.Landing.StartEnabled | src/components/skylane/ConsularLanding.tsx:496 | The main button is enabled iff the application can proceed and nothing is loading. |
| ConsularLanding.Landing.ShowsServices | src/components/skylane/ConsularLanding.tsx:387 | The service grid is shown iff some service is active and nothing is loading. |
| ConsularLanding.Landing.GroupedServices | src/components/skylane/ConsularLanding.tsx:244-252 | The grouping of the active services: every active service is under its own category, and only active services appear. |
| ConsularLanding.Landing.StartApplication | src/components/skylane/ConsularLanding.tsx:253-261 | A card's button emits exactly that service. The main button emits all active services when the application can proceed, and nothing otherwise. |
| ConsularLanding.Landing.ClickStart | src/components/skylane/ConsularLanding.tsx:495-496 | The main button emits something iff it is enabled, and then it emits all active services. Nothing is emitted while loading. |
| ConsularLanding.Landing.ClickServiceCard | src/components/skylane/ConsularLanding.tsx:387-450 | A card exists only while the grid is shown. Clicking the card of the `k`-th active service emits the three chosen countries with exactly that service. |
| ConsularLanding.ChooseCountriesAndLoad | src/components/skylane/ConsularLanding.tsx:222-261 | On a fresh page, choosing the two missing countries and receiving the response starts an application with all nine services. |
| ConsularLanding.StartRefusedWhileLoading | src/components/skylane/ConsularLanding.tsx:222-261 | Once the countries are chosen and the fetch is running, the start button emits nothing. |
| SkylaneBooking.StepIdsInOrder | src/components/skylane/SkylaneBooking.tsx:63-148 | The table has twelve steps, and step `i + 1` is at index `i`. |
| SkylaneBooking.StepCategories | src/components/skylane/SkylaneBooking.tsx:151-160 | One group per category, in sidebar order. Each group holds that category's steps from the table. |
| SkylaneBooking.StepCategoriesPartition | src/components/skylane/SkylaneBooking.tsx:151-160 | The sidebar lists each category once. A step is in a category's group iff the table gives it that category. Each group's ids ascend. |
| SkylaneBooking.FindStep | src/components/skylane/SkylaneBooking.tsx:199 | `find`: Some iff some entry has the id, and then it is an entry with that id. |
| SkylaneBooking.FindCurrentStep | src/components/skylane/SkylaneBooking.tsx:199-200 | Every step `1..12` is found as its table row. Any other number is not found. |
| SkylaneBooking.Flags | src/components/skylane/SkylaneBooking.tsx:387-389 | A category is active iff one of its steps is current. It has completed steps iff one is past. It is all-completed iff all are past. It is never both active and all-completed. |
| SkylaneBooking.ExactlyOneActiveCategory | src/components/skylane/SkylaneBooking.tsx:387 | On any step exactly one category header is active: the category of the current step. |
| SkylaneBooking.DocumentationPartlyDoneOnStepSix | src/components/skylane/SkylaneBooking.tsx:92-112 | On step 6, Documentation is neither active nor all-completed but has a completed step, because step 5 is done and step 7 is not. |
| SkylaneBooking.DocumentationHasFiveAndSeven | src/components/skylane/SkylaneBooking.tsx:153 | The Documentation group holds steps 5 and 7. |
| SkylaneBooking.DocumentationExcludesSix | src/components/skylane/SkylaneBooking.tsx:153 | The Documentation group does not hold step 6. |
| SkylaneBooking.MergeBooking | src/components/skylane/SkylaneBooking.tsx:227-229 | Each field present in the patch takes the patch's value. The others keep theirs. The empty patch changes nothing. |
| SkylaneBooking.MergeBookingLaws | src/components/skylane/SkylaneBooking.tsx:227-229 | A patch with only the verified flag changes only that flag. A merge applied twice equals one. |
| SkylaneBooking.InitialExpanded | src/components/skylane/SkylaneBooking.tsx:164-173 | Every category has an entry, and only Setup is open. |
| SkylaneBooking.Toggle | src/components/skylane/SkylaneBooking.tsx:208-213 | The named category flips, with a missing key read as closed. Every other entry is unchanged. |
| SkylaneBooking.ToggleTwice | src/components/skylane/SkylaneBooking.tsx:208-213 | Toggling a category twice restores the sidebar. |
| SkylaneBooking.ExpandFor | src/components/skylane/SkylaneBooking.tsx:198-206 | The auto-expand effect opens the current step's category and nothing else. A step that is not found changes nothing. |
| SkylaneBooking.Booking.constructor | src/components/skylane/SkylaneBooking.tsx:163-193 | Step 1, only Setup open, the empty booking record. |
| SkylaneBooking.Booking.HandleNext | src/components/skylane/SkylaneBooking.tsx:215-219 | The step becomes `Next(step, 12)`. When it moved, the new step's category is opened. The booking is unchanged. |
| SkylaneBooking.Booking.HandlePrevious | src/components/skylane/SkylaneBooking.tsx:221-225 | The step becomes `Previous(step)`, with the same auto-expand rule. |
| SkylaneBooking.Booking.ToggleCategory | src/components/skylane/SkylaneBooking.tsx:208-213 | The category's open state flips. Step and booking are unchanged. |
| SkylaneBooking.Booking.UpdateBookingData | src/components/skylane/SkylaneBooking.tsx:227-229 | The booking becomes the merge of the patch. Step and sidebar are unchanged. |
| SkylaneBooking.WalkToVerification | src/components/skylane/SkylaneBooking.tsx:198-219 | Walking from step 1 to step 6 opens Setup, Documentation and Verification and leaves the later categories closed. |
| ApplicationOverview.ServiceFeeCents | src/components/skylane/steps/ApplicationOverviewStep.tsx:38 | The fee is 2500 cents iff the first service is a visa, and 4000 otherwise, including for an empty list. |
| ApplicationOverview.ProcessingTime | src/components/skylane/steps/ApplicationOverviewStep.tsx:39 | "3-5 days" iff the first service is a visa, otherwise "7-10 days". |
| ApplicationOverview.LabelsMatchAmounts | src/components/skylane/steps/ApplicationOverviewStep.tsx:185-198 | The literal labels agree with the arithmetic. The fee label prints the fee. The fixed lines print US$ 5.00 and US$ 2.00. The total literal prints fee + 5 + 2 dollars. |
| ApplicationOverview.DollarsText | src/components/skylane/steps/ApplicationOverviewStep.tsx:198 | A whole amount of 10 to 99 dollars prints as its two digits and `.00`. |
| ApplicationOverview.DollarText | src/components/skylane/steps/ApplicationOverviewStep.tsx:189-193 | A whole amount of 1 to 9 dollars prints as its digit and `.00`. |
| ApplicationOverview.Panel.constructor | src/components/skylane/steps/ApplicationOverviewStep.tsx:36 | The terms box starts unchecked, so Continue starts disabled. |
| ApplicationOverview.Panel.ContinueEnabled | src/components/skylane/steps/ApplicationOverviewStep.tsx:236 | Continue is enabled iff the terms are accepted. |
| ApplicationOverview.Panel.SetAccepted | src/components/skylane/steps/ApplicationOverviewStep.tsx:225-226 | The accepted flag follows the checkbox. |
| ApplicationOverview.Panel.Continue | src/components/skylane/steps/ApplicationOverviewStep.tsx:235-236 | The wizard is asked to advance once iff the terms are accepted. |
| ApiServiceSelection.ShowsEmptyState | src/components/skylane/steps/ApiServiceSelectionStep.tsx:177 | The "No Services Available" card is shown iff no service is active. |
| ApiServiceSelection.ContinueEnabled | src/components/skylane/steps/ApiServiceSelectionStep.tsx:196 | Continue is enabled iff a service is selected. |
| ApiServiceSelection.GroupActiveServices | src/components/skylane/steps/ApiServiceSelectionStep.tsx:57-65 | Every active service is in its category's group, and only active services appear. The group sizes add up to the number of active services. |
| ApiServiceSelection.Panel.SelectService | src/components/skylane/steps/ApiServiceSelectionStep.tsx:143 | A card click makes that service the selected one. |
| ApiServiceSelection.Panel.Continue | src/components/skylane/steps/ApiServiceSelectionStep.tsx:195-196 | The wizard is asked to advance once iff a service is selected. |
| OtpVerification.FormatTimeRoundTrip | src/components/skylane/steps/OtpVerificationStep.tsx:38-42 | `m:ss` reads back: the digits before the colon are the minutes, and two digits below 60 follow it. Minutes × 60 + seconds is the input. |
| OtpVerification.FormatInitialTime | src/components/skylane/steps/OtpVerificationStep.tsx:25 | The initial 120 seconds display as "2:00". |
| OtpVerification.Panel.constructor | src/components/skylane/steps/OtpVerificationStep.tsx:24-27 | Empty code, 120 seconds left, not verifying, resend disabled. |
| OtpVerification.Panel.VerifyEnabled | src/components/skylane/steps/OtpVerificationStep.tsx:161 | Enabled iff six characters are entered and nothing is verifying. |
| OtpVerification.Panel.ResendEnabled | src/components/skylane/steps/OtpVerificationStep.tsx:149 | Enabled iff the countdown has reached zero. |
| OtpVerification.Panel.Tick | src/components/skylane/steps/OtpVerificationStep.tsx:29-36 | One second passes. At zero the resend flag is set. |
| OtpVerification.Panel.SetOtp | src/components/skylane/steps/OtpVerificationStep.tsx:96-99 | The code becomes the input's value. |
| OtpVerification.Panel.HandleResendOtp | src/components/skylane/steps/OtpVerificationStep.tsx:55-59 | The countdown restarts at 120, resend is disabled and the code is cleared. |
| OtpVerification.Panel.HandleVerifyOtp | src/components/skylane/steps/OtpVerificationStep.tsx:44-53 | Does nothing unless six characters are entered. Otherwise verification starts and one answer is scheduled. |
| OtpVerification.Panel.CompleteVerification | src/components/skylane/steps/OtpVerificationStep.tsx:49-52 | Verification ends and the wizard is asked to advance once. |
| OtpVerification.Panel.ClickVerify | src/components/skylane/steps/OtpVerificationStep.tsx:159-161 | Only an enabled button verifies, so no second verification starts while one is in progress. |
| OtpVerification.Panel.ClickResend | src/components/skylane/steps/OtpVerificationStep.tsx:146-149 | The resend button restarts the countdown and clears the code only after the countdown has run out. Earlier it changes nothing. |
| OtpVerification.DoubleClickVerifiesOnce | src/components/skylane/steps/OtpVerificationStep.tsx:44-61 | Two clicks on verify with a six-character code start one verification, and its answer advances the wizard once. |
| OtpVerification.RunDownAndResend | src/components/skylane/steps/OtpVerificationStep.tsx:29-59 | After 120 ticks resend is enabled. Resending restores 120 seconds and disables it again. |
| DocumentCollection.RequiredOptionalPartition | src/components/steps/DocumentCollection.tsx:116-117 | The required and optional lists split the entries: the sizes add up, each entry lands in exactly one list, and both lists keep table order. |
| DocumentCollection.CompletedRequired | src/components/steps/DocumentCollection.tsx:119-121 | The count of ticked required entries never exceeds the number of required entries. |
| DocumentCollection.IsReadyToNext | src/components/steps/DocumentCollection.tsx:123 | Ready iff every required entry of the service is ticked. |
| DocumentCollection.HandleDocumentToggle | src/components/steps/DocumentCollection.tsx:125-130 | The list handed on is the checklist toggle of the id. The id is listed afterwards iff it was not before. |
| DocumentCollection.UnknownServiceAlwaysReady | src/components/steps/DocumentCollection.tsx:115 | A service missing from the table has no requirements, so it is ready with any list. |
| DocumentCollection.PassportFreshMinorRequirements | src/components/steps/DocumentCollection.tsx:22-53 | For a fresh passport for a minor, four certificates are required, in table order, and the no-objection certificate is optional. |
| DocumentCollection.ToggleRequiredBreaksReadiness | src/components/steps/DocumentCollection.tsx:123-130 | Unticking a ticked required entry makes the step not ready. |
| DocumentCollectionStep.TableIdsUnique | src/components/skylane/steps/DocumentCollectionStep.tsx:15-37 | No service lists a document id twice. |
| DocumentCollectionStep.AutoSelected | src/components/skylane/steps/DocumentCollectionStep.tsx:48-52 | An id is auto-selected iff a required document of the service carries it. The ids follow table order and none repeats. A service without a table selects nothing. |
| DocumentCollectionStep.FindDocument | src/components/skylane/steps/DocumentCollectionStep.tsx:55 | `find`: None iff no entry has the id. Some gives an entry with that id. |
| DocumentCollectionStep.ToggleDocument | src/components/skylane/steps/DocumentCollectionStep.tsx:54-63 | A required document is never toggled. Any other id is toggled. A selected required id stays selected. |
| DocumentCollectionStep.RequiredStaySelected | src/components/skylane/steps/DocumentCollectionStep.tsx:54-63 | Once every required document is selected, it stays selected after any run of clicks. |
| DocumentCollectionStep.AutoSelectionSurvives | src/components/skylane/steps/DocumentCollectionStep.tsx:48-63 | The automatic selection keeps every required document through any run of clicks. |
| DocumentCollectionStep.OptionalSelectedCount | src/components/skylane/steps/DocumentCollectionStep.tsx:168 | The optional-documents counter never exceeds the number of optional entries. |
| DocumentCollectionStep.AutoSelectionCountsNoOptional | src/components/skylane/steps/DocumentCollectionStep.tsx:168 | Right after the automatic selection the optional counter is 0. |
| DocumentCollectionStep.ContinueEnabled | src/components/skylane/steps/DocumentCollectionStep.tsx:186-193 | Continue has no gate. |
| DocumentUpload.AddFiles | src/components/steps/DocumentUpload.tsx:27-31 | New files go after the old ones and the list is cut to the document count. The length is `min(old + new, count)`. Old files are kept when they fit. Nothing is cut when everything fits. |
| DocumentUpload.RemoveFile | src/components/steps/DocumentUpload.tsx:33-36 | An index in range removes exactly that file and keeps the others in order. An index out of range changes nothing. |
| DocumentUpload.ContinueEnabled | src/components/steps/DocumentUpload.tsx:211 | Enabled iff there are as many files as documents. |
| DocumentUpload.ChecklistMatchesCompletion | src/components/steps/DocumentUpload.tsx:168 | While the cap holds, the step is complete iff every checklist entry shows a file. Adding files never breaks the cap. |
| DocumentUpload.OverCapChecklistMisleads | src/components/steps/DocumentUpload.tsx:25-47 | With more files than documents, which unticking a document in the four-step wizard can cause, every entry shows a file yet Continue is disabled. The next add cuts the list back to one file per document. |
| DocumentUpload.CompleteTransitions | src/components/steps/DocumentUpload.tsx:25-47 | When complete, added files are dropped. Removing any file makes the step incomplete. Adding one file back completes it again. |
| PhoneVerification.FormatPhone | src/components/skylane/steps/PhoneVerificationStep.tsx:52-59 | The result starts with `+973` followed only by digits. Digits that start with 973 get a `+`. Other digits get `+973`. |
| PhoneVerification.PlusBranchDead | src/components/skylane/steps/PhoneVerificationStep.tsx:58 | The digit string never starts with `+`, so the branch returning `value` is unreachable. |
| PhoneVerification.FormatPhoneIdempotent | src/components/skylane/steps/PhoneVerificationStep.tsx:52-59 | Formatting a formatted number returns it unchanged. |
| PhoneVerification.SanitizeOtp | src/components/skylane/steps/PhoneVerificationStep.tsx:154 | The code is the first six digits of the input, or all of them when there are fewer. |
| PhoneVerification.SanitizeOtpStable | src/components/skylane/steps/PhoneVerificationStep.tsx:154 | Sanitising a sanitised code changes nothing. |
| PhoneVerification.FormattedNumberCanSend | src/components/skylane/steps/PhoneVerificationStep.tsx:31 | A number formatted from at least seven digits passes the send guard. |
| PhoneVerification.Panel.constructor | src/components/skylane/steps/PhoneVerificationStep.tsx:26-28 | No code, not sent, not loading. |
| PhoneVerification.Panel.PhoneInput | src/components/skylane/steps/PhoneVerificationStep.tsx:87-103 | Before verification and before an OTP was sent, the wizard's number becomes the formatted input. Otherwise the field is absent or disabled and nothing changes. |
| PhoneVerification.Panel.SendEnabled | src/components/skylane/steps/PhoneVerificationStep.tsx:114 | Enabled iff the number is non-empty, has at least 8 characters, and nothing is loading. |
| PhoneVerification.Panel.HandleSendOtp | src/components/skylane/steps/PhoneVerificationStep.tsx:30-39 | Does nothing when the guard fails. Otherwise loading starts and one send is scheduled. The Resend button calls the same handler. |
| PhoneVerification.Panel.CompleteSend | src/components/skylane/steps/PhoneVerificationStep.tsx:35-38 | The OTP counts as sent and loading ends. |
| PhoneVerification.Panel.SetOtp | src/components/skylane/steps/PhoneVerificationStep.tsx:154 | While the code field is shown, the code becomes the sanitised input. |
| PhoneVerification.Panel.ChangeNumber | src/components/skylane/steps/PhoneVerificationStep.tsx:166-169 | Back to entering the number, with the code cleared. |
| PhoneVerification.Panel.VerifyEnabled | src/components/skylane/steps/PhoneVerificationStep.tsx:179 | Enabled iff the code has six characters and nothing is loading. |
| PhoneVerification.Panel.HandleVerifyOtp | src/components/skylane/steps/PhoneVerificationStep.tsx:41-50 | Does nothing unless the code has six characters. Otherwise loading starts and one verification is scheduled. |
| PhoneVerification.Panel.CompleteVerification | src/components/skylane/steps/PhoneVerificationStep.tsx:46-49 | The wizard records the number as verified and loading ends. |
| PhoneVerification.Panel.ContinueEnabled | src/components/skylane/steps/PhoneVerificationStep.tsx:237 | Enabled iff the number is verified. |
| PhoneVerification.Panel.Continue | src/components/skylane/steps/PhoneVerificationStep.tsx:236-237 | The wizard is asked to advance once iff the number is verified. |
| PhoneVerification.Panel.ClickSend | src/components/skylane/steps/PhoneVerificationStep.tsx:110-114 | The Send button is shown only before an OTP was sent and before verification. It sends only when enabled, so nothing new starts while loading. |
| PhoneVerification.Panel.ClickResend | src/components/skylane/steps/PhoneVerificationStep.tsx:201-204 | The Resend button is shown with the code field and disabled while loading. It then runs the send handler, guard included. |
| PhoneVerification.Panel.ClickVerify | src/components/skylane/steps/PhoneVerificationStep.tsx:177-179 | The Verify button is shown with the code field. It verifies only when enabled, so nothing new starts while loading. |
| PhoneVerification.VerifyLocalNumber | src/components/skylane/steps/PhoneVerificationStep.tsx:30-59 | Typing a local number, sending, entering six digits and verifying leaves the number verified and Continue enabled. |
| PhoneVerification.DoubleClicksActOnce | src/components/skylane/steps/PhoneVerificationStep.tsx:30-50 | Two clicks on Send schedule one send. Two clicks on Verify schedule one verification. The number ends verified with nothing pending. |
| PhoneNumber.RegexGroup | src/components/skylane/steps/PhoneNumberStep.tsx:32 | `replace(/(\d{4})(\d{0,4})/, '$1 $2')` on at most eight digits. From four digits on, a space follows the fourth digit. Fewer digits are unchanged. |
| PhoneNumber.GroupDigits | src/components/skylane/steps/PhoneNumberStep.tsx:32 | Grouping then `trim()` keeps the same digits, and inserts a space only when there are more than four digits. |
| PhoneNumber.LocalPart | src/components/skylane/steps/PhoneNumberStep.tsx:26-36 | The accepted local digits: at most eight digits, either all of the input's digits or what follows a leading 973. |
| PhoneNumber.FormatNumber | src/components/skylane/steps/PhoneNumberStep.tsx:24-39 | Accepted digits become `+973 ` followed by them grouped, so the digits of the result are 973 followed by the local part. Otherwise the current value is returned. |
| PhoneNumber.FormatNumberIdempotent | src/components/skylane/steps/PhoneNumberStep.tsx:24-39 | Formatting a formatted number gives it back, whatever the current value. |
| PhoneNumber.SameDigitsSameLocal | src/components/skylane/steps/PhoneNumberStep.tsx:26 | The formatter reads only the digits of its input. |
| PhoneNumber.FullNumberStable | src/components/skylane/steps/PhoneNumberStep.tsx:29-33 | A complete `+973 XXXX XXXX` number is a fixed point. |
| PhoneNumber.FormattedValidIff | src/components/skylane/steps/PhoneNumberStep.tsx:53-56 | A formatted number is valid, with at least 11 digits, iff all eight local digits were given. |
| PhoneNumber.Panel.PhoneInput | src/components/skylane/steps/PhoneNumberStep.tsx:94 | The wizard's number becomes the formatted input, or stays as it is when the input is rejected. |
| PhoneNumber.Panel.ProceedEnabled | src/components/skylane/steps/PhoneNumberStep.tsx:164 | Enabled iff the number has at least 11 digits and no validation is running. |
| PhoneNumber.Panel.ValidateAndProceed | src/components/skylane/steps/PhoneNumberStep.tsx:41-51 | Does nothing for an invalid number. Otherwise validation starts and one timer is scheduled. |
| PhoneNumber.Panel.CompleteValidation | src/components/skylane/steps/PhoneNumberStep.tsx:46-49 | Validation ends and the wizard is asked to advance once. |
| PhoneNumber.Panel.ClickProceed | src/components/skylane/steps/PhoneNumberStep.tsx:163-164 | Only an enabled button starts a validation. |
| PhoneNumber.LocalNumberFormatted | src/components/skylane/steps/PhoneNumberStep.tsx:34-35 | Eight local digits become the valid number `+973 XXXX XXXX`. |
| PhoneNumber.EnterAndProceed | src/components/skylane/steps/PhoneNumberStep.tsx:24-56 | Typing eight local digits and proceeding advances the wizard once. |
| FormsUpload.SelectFiles | src/components/skylane/steps/FormsUploadStep.tsx:67-76 | A null file list gives no update. Otherwise the files are appended to that form's list and every other form is unchanged. |
| FormsUpload.RemoveFile | src/components/skylane/steps/FormsUploadStep.tsx:78-85 | Only the file at that index of that form goes, and the rest keep their order. Other forms are unchanged. |
| FormsUpload.RequiredFormsCount | src/components/skylane/steps/FormsUploadStep.tsx:95 | Four of the six forms are required. |
| FormsUpload.RequiredIds | src/components/skylane/steps/FormsUploadStep.tsx:14-57 | The required forms are the first four rows. |
| FormsUpload.FirstFour | src/components/skylane/steps/FormsUploadStep.tsx:14-42 | The first four rows are the passport form, the XRC form, the national ID and the birth certificate, all required. |
| FormsUpload.LastTwoOptional | src/components/skylane/steps/FormsUploadStep.tsx:43-57 | The table has six rows and the last two are optional. |
| FormsUpload.CompletedRequiredForms | src/components/skylane/steps/FormsUploadStep.tsx:96-98 | The number of required forms with files is between 0 and the required count. |
| FormsUpload.CompleteIff | src/components/skylane/steps/FormsUploadStep.tsx:95-99 | The step is complete iff each of the four required forms has at least one file. |
| FormsUpload.OptionalFormsIrrelevant | src/components/skylane/steps/FormsUploadStep.tsx:96-99 | Files under the two optional forms never change completeness. |
| FormsUpload.AddingKeepsComplete | src/components/skylane/steps/FormsUploadStep.tsx:67-99 | Adding files never undoes completeness. |
| FormsUpload.RemovingOnlyFileBreaksCompletion | src/components/skylane/steps/FormsUploadStep.tsx:78-99 | Removing the only file of a required form undoes completeness. |
| FormsUpload.ContinueEnabled | src/components/skylane/steps/FormsUploadStep.tsx:251 | Enabled iff all four required forms have files. |
| PersonalInfo.InputChange | src/components/skylane/steps/PersonalInfoStep.tsx:26-31 | The named field holds the typed text. Every other field is kept. |
| PersonalInfo.FileUpload | src/components/skylane/steps/PersonalInfoStep.tsx:33-41 | No update for a missing or empty file list. Otherwise only the first file is stored under the field, and every other field is kept. |
| PersonalInfo.RemoveField | src/components/skylane/steps/PersonalInfoStep.tsx:43-47 | The field becomes absent. Every other field is kept. |
| PersonalInfo.IsComplete | src/components/skylane/steps/PersonalInfoStep.tsx:57-63 | Complete iff the passport number, the passport file and the photo are all present and truthy. |
| PersonalInfo.OptionalFieldsIrrelevant | src/components/skylane/steps/PersonalInfoStep.tsx:57-63 | Setting or removing the visa document or the passport expiry never changes completeness. |
| PersonalInfo.CompletenessTransitions | src/components/skylane/steps/PersonalInfoStep.tsx:26-63 | Removing any required field, or typing an empty passport number, makes the step incomplete. Setting all three completes it. |
| AppointmentScheduling.Panel.constructor | src/components/skylane/steps/AppointmentSchedulingStep.tsx:53-56 | The panel starts with the wizard's appointment, and the report agrees with it. |
| AppointmentScheduling.Panel.HandleCenterSelect | src/components/skylane/steps/AppointmentSchedulingStep.tsx:84-94 | The centre is set and date and time are cleared, locally and in the report. The step becomes incomplete. |
| AppointmentScheduling.Panel.ClickCenter | src/components/skylane/steps/AppointmentSchedulingStep.tsx:149 | Only an available centre is selected. |
| AppointmentScheduling.Panel.HandleDateSelect | src/components/skylane/steps/AppointmentSchedulingStep.tsx:96-105 | The centre is kept, the date is set and the time is cleared. The step becomes incomplete. |
| AppointmentScheduling.Panel.HandleTimeSelect | src/components/skylane/steps/AppointmentSchedulingStep.tsx:107-116 | Centre and date are kept and the time is set. The step is complete iff all three are non-empty. |
| AppointmentScheduling.Panel.ClickDate | src/components/skylane/steps/AppointmentSchedulingStep.tsx:189-204 | The date grid exists only once a centre is chosen, and an unavailable date is disabled. An accepted click keeps the centre, sets the date and clears the time. Choices stay ordered: a date only with a centre. |
| AppointmentScheduling.Panel.ClickTime | src/components/skylane/steps/AppointmentSchedulingStep.tsx:219-235 | The time grid exists only once a centre and a date are chosen, and an unavailable slot is disabled. An accepted click keeps centre and date and sets the time. Choices stay ordered. |
| AppointmentScheduling.ChooseAppointment | src/components/skylane/steps/AppointmentSchedulingStep.tsx:84-235 | Clicking an available centre, date and slot completes the step, and the wizard holds the same triple. |
| AppointmentScheduling.CenterAvailability | src/components/skylane/steps/AppointmentSchedulingStep.tsx:18-40 | Muharraq cannot be chosen. Manama and Riffa can. |
| PreviewConfirmation.ServiceTitle | src/components/skylane/steps/PreviewConfirmationStep.tsx:29-39 | A known id gives its own title, which differs from the id. Any other id is shown as it is. |
| PreviewConfirmation.CenterName | src/components/skylane/steps/PreviewConfirmationStep.tsx:41-48 | A known id gives its name. Any other id is shown as it is. |
| PreviewConfirmation.CenterNamesAgree | src/components/skylane/steps/PreviewConfirmationStep.tsx:42-46 | Each centre of the appointment step is named as that step names it. |
| PreviewConfirmation.ChecklistServicesTitled | src/components/skylane/steps/PreviewConfirmationStep.tsx:30-37 | Every service with a document checklist has a title of its own. |
| PreviewConfirmation.DateLabel | src/components/skylane/steps/PreviewConfirmationStep.tsx:50-58 | An empty date reads "Not selected". Any other date is shown in the locale text. |
| PreviewConfirmation.TimeLabel | src/components/skylane/steps/PreviewConfirmationStep.tsx:266 | An empty time reads "Not selected". Any other time is shown as it is. |
| PreviewConfirmation.TotalUploadedFiles | src/components/skylane/steps/PreviewConfirmationStep.tsx:60-62 | At least the number of uploaded documents. Exactly that number when no form has files. The key order is a parameter, made irrelevant by `EnumerationIrrelevant`. |
| PreviewConfirmation.SameKeysSameSum | src/components/skylane/steps/PreviewConfirmationStep.tsx:60-61 | Two repeat-free key lists with the same keys give the same sum of list lengths, whatever their order. |
| PreviewConfirmation.EnumerationIrrelevant | src/components/skylane/steps/PreviewConfirmationStep.tsx:60-62 | Any two orders in which `Object.values` may visit the forms give the same total, so the count depends on the booking alone. |
| PreviewConfirmation.SumReplace | src/components/skylane/steps/PreviewConfirmationStep.tsx:60-61 | Replacing one form's list changes the sum by the difference of the two lengths. |
| PreviewConfirmation.SumAppend | src/components/skylane/steps/PreviewConfirmationStep.tsx:60-61 | One more key in the enumeration adds its list's length. |
| PreviewConfirmation.SelectingFilesRaisesTotal | src/components/skylane/steps/PreviewConfirmationStep.tsx:60-62 | Selecting files for a form raises the total by exactly the number selected. |
| PreviewConfirmation.RemovingFileLowersTotal | src/components/skylane/steps/PreviewConfirmationStep.tsx:60-62 | Removing a file lowers the total by one. An index outside the list changes nothing. |
| PreviewConfirmation.DocumentsCounter | src/components/skylane/steps/PreviewConfirmationStep.tsx:164 | The documents counter is the number of documents chosen. |
| PreviewConfirmation.PersonalInfoCounter | src/components/skylane/steps/PreviewConfirmationStep.tsx:176 | At most 1, and 1 iff the passport number is set. |
| PreviewConfirmation.CompletePersonalInfoCounted | src/components/skylane/steps/PreviewConfirmationStep.tsx:176 | A completed personal-information step always shows 1. |
| PreviewConfirmation.ContinueEnabled | src/components/skylane/steps/PreviewConfirmationStep.tsx:302-306 | Continue has no gate. |
| Payment.WithField | src/components/skylane/steps/PaymentStep.tsx:48-53 | The named field takes the value. The other fields and the amount keep theirs. |
| Payment.TotalFils | src/components/skylane/steps/PaymentStep.tsx:65-68 | The total is BD 50.000 (50000 fils) whatever the service. |
| Payment.TotalText | src/components/skylane/steps/PaymentStep.tsx:107 | `toFixed(3)` of the total renders "50.000". |
| Payment.Panel.constructor | src/components/skylane/steps/PaymentStep.tsx:45-46 | Not processing, card method. |
| Payment.Panel.PayEnabled | src/components/skylane/steps/PaymentStep.tsx:252 | Enabled iff first name, last name and email are all non-empty and nothing is processing. |
| Payment.Panel.PreviousEnabled | src/components/skylane/steps/PaymentStep.tsx:244 | Enabled iff nothing is processing. |
| Payment.Panel.InputChange | src/components/skylane/steps/PaymentStep.tsx:48-53 | The details become the record with that field replaced. |
| Payment.Panel.HandlePayment | src/components/skylane/steps/PaymentStep.tsx:55-57 | Processing starts and one completion is scheduled. |
| Payment.Panel.PaymentCompleted | src/components/skylane/steps/PaymentStep.tsx:59-62 | Processing ends and the wizard is asked to advance once. |
| Payment.Panel.ClickPay | src/components/skylane/steps/PaymentStep.tsx:251-252 | Only an enabled button starts a payment, so no second payment starts while one is processing. |
| Payment.Panel.ClickPrevious | src/components/skylane/steps/PaymentStep.tsx:240-244 | The wizard is asked to go back once, unless a payment is processing. |
| Payment.DoubleClickPaysOnce | src/components/skylane/steps/PaymentStep.tsx:55-63 | Two clicks on Pay with a complete form start one payment, Previous is refused meanwhile, and the completion advances the wizard once. |

## Left out

- **Rendering.** JSX layout, styling, icons and static text are not modelled. Neither is which panel each wizard step renders: that is wiring of props to callbacks, and the callbacks themselves are modelled.
- **Timers.** No durations are modelled. A scheduled `setTimeout` callback is a separate method that may run once per pending start; clearing a timer on unmount is not modelled.
- **Errors in the simulated fetch.** The `catch` branch of the landing page's simulated fetch cannot be reached: the `try` body only schedules a timer.
- **Random and clock-dependent behaviour.** `Math.random` time-slot availability and the `Date`-based list of weekdays in the appointment step are left out: they depend on the clock and on randomness. Dates and times enter the model as plain strings, and whether a date or slot is available is the `available` parameter of `ClickDate` and `ClickTime`.
- **Locale date text.** `toLocaleDateString` is a parameter (`localeText`) of `PreviewConfirmation.DateLabel`.
- **Floating point.** `formatFileSize` and the progress percentages are floating-point display only. Money is held exactly in cents or fils instead of JavaScript numbers.
- **File contents.** Browser `File` objects are reduced to a name and a size, and their contents are never read. The hidden file inputs and drag-and-drop event plumbing are not modelled; their results are the `files` arguments.
- **Template downloads.** The template-download handler in the document checklist only logs, so it is left out.
- **The success step and the step-5 upload panel.** `SuccessStep` (QR data from `Date.now()`, a PDF stub) and `DocumentUploadStep` are not part of this model.
- **Third-party input components.** The internals of `InputOTP` and the other UI library components are foreign code. They are treated as delivering the typed string.
- **The `maxLength` attributes.** The attributes on the phone input (15) and the OTP inputs (6) are browser limits on typing and are not modelled. The OTP's six-character limit is modelled where the code enforces it (`PhoneVerification.SanitizeOtp`).
- **Unused fee table.** PaymentStep's per-service fee table (`serviceFees`) is declared but never read; the step always charges the fixed BD 35.000 + 10.000 + 5.000.
- **Service tabs.** The landing page shows the groups as tabs in `Object.entries` insertion order, and keeps the selected tab in `activeTab`. A Dafny `map` has no key order, so the tab order and the tab selection are not modelled.
- **Edit buttons.** The preview's "Edit" buttons have empty handlers and change nothing.
- **Defensive fallbacks.** The preview's `|| 0`, `?.` and `|| {}` fallbacks cannot fire: the booking record always holds a list for documents, uploaded files and forms.
- **Payment method.** The card is the only payment method the panel offers, so `Payment.Panel.SelectCard` only re-selects it.
- **The dead `+` branch in the phone-verification step.** `PhoneVerification.FormatPhone` models the `startsWith('+')` branch as written, and `PhoneVerification.PlusBranchDead` proves it unreachable. The branch tests the digit string rather than the raw input. Whether it was meant to keep a foreign `+` number unchanged is not evident from the code, so the model keeps the code's behaviour: every number is rewritten to `+973…`.
